/** The collection file (internal/modules/sepa/xml.go:103-193): ISO 20022 pain.008.001.02, grouped by sequence type.
    Amounts are in units of 10^-10 euro; printed amounts are in cents. */
module SepaFile {
  import opened Wrappers
  import opened Sequences
  import opened Rounding
  import opened SepaText
  import opened Decimals

  const CENT: int := 100_000_000
  const MAX_AMOUNT: int := 99_999_999_999 * CENT

  datatype SeqType = FRST | RCUR | NoType

  datatype Item = Item(e2e: string, amount: int, mandateRef: string, mandateDate: int, debtor: string, iban: string, bic: string, remittance: string, seqType: SeqType)

  /** One direct debit as written; an empty bic is written as NOTPROVIDED. */
  datatype Entry = Entry(e2e: string, cents: int, mandateRef: string, mandateDate: int, debtor: string, iban: string, bic: string, remittance: string)

  datatype Block = Block(count: nat, ctrlSum: int, seqType: SeqType, entries: seq<Entry>)

  datatype File = File(msgId: string, count: nat, ctrlSum: int, blocks: seq<Block>)

  datatype Built = Built(file: File, total: int) | NoItems | NoSequenceType(e2e: string) | BadAmount(e2e: string)

  /** StringFixed(2): half away from zero. */
  function Cents(amount: int): int { RoundAway(amount, CENT) }

  function EntryOf(it: Item): Entry {
    Entry(Cleaned(it.e2e, 35), Cents(it.amount), Cleaned(it.mandateRef, 35), it.mandateDate, Cleaned(it.debtor, 70), it.iban,
          if it.bic == "" then "NOTPROVIDED" else it.bic, Cleaned(it.remittance, 140))
  }

  function Entries(items: seq<Item>): (es: seq<Entry>)
    ensures |es| == |items|
  {
    if items == [] then [] else Entries(items[..|items| - 1]) + [EntryOf(items[|items| - 1])]
  }

  function Total(items: seq<Item>): int { if items == [] then 0 else Total(items[..|items| - 1]) + items[|items| - 1].amount }

  function OfType(items: seq<Item>, t: SeqType): (r: seq<Item>)
    ensures forall x :: x in r <==> x in items && x.seqType == t
  {
    if items == [] then [] else
    assert items == items[..|items| - 1] + [items[|items| - 1]];
    OfType(items[..|items| - 1], t) + if items[|items| - 1].seqType == t then [items[|items| - 1]] else []
  }

  function BlockOf(t: SeqType, g: seq<Item>): Block {
    Block(|g|, Cents(Total(g)), t, Entries(g))
  }

  /** The sequence types in use, sorted. */
  function TypesOf(items: seq<Item>): seq<SeqType> {
    (if OfType(items, FRST) != [] then [FRST] else []) + (if OfType(items, RCUR) != [] then [RCUR] else [])
  }

  function BlocksOf(items: seq<Item>, types: seq<SeqType>): seq<Block> {
    if types == [] then [] else
    var t := types[|types| - 1];
    BlocksOf(items, types[..|types| - 1]) + [BlockOf(t, OfType(items, t))]
  }

  predicate HasType(it: Item) { it.seqType != NoType }

  predicate AmountOk(it: Item) { 0 < it.amount <= MAX_AMOUNT }

  predicate Acceptable(items: seq<Item>) { forall it :: it in items ==> HasType(it) && AmountOk(it) }

  /** The first thing wrong with the items, in their order. */
  function Objection(items: seq<Item>): (r: Built)
    requires items != [] && !Acceptable(items)
    ensures r.NoSequenceType? || r.BadAmount?
  {
    var front, it := items[..|items| - 1], items[|items| - 1];
    assert items == front + [it];
    if front != [] && !Acceptable(front) then Objection(front)
    else if !HasType(it) then NoSequenceType(it.e2e) else BadAmount(it.e2e)
  }

  function FileOf(msgId: string, items: seq<Item>): File {
    File(msgId, |items|, Cents(Total(items)), BlocksOf(items, TypesOf(items)))
  }

  lemma {:induction false} OneMore(items: seq<Item>, k: nat)
    requires k < |items|
    ensures items[..k + 1] == items[..k] + [items[k]] && Total(items[..k + 1]) == Total(items[..k]) + items[k].amount
    ensures Acceptable(items[..k + 1]) <==> Acceptable(items[..k]) && HasType(items[k]) && AmountOk(items[k])
    ensures forall t :: OfType(items[..k + 1], t) == if items[k].seqType == t then OfType(items[..k], t) + [items[k]] else OfType(items[..k], t)
  {
    var p, it := items[..k], items[k];
    assert items[..k + 1] == p + [it];
    TotalMore(p, it);
    forall t
      ensures OfType(p + [it], t) == if it.seqType == t then OfType(p, t) + [it] else OfType(p, t)
    {
      OfTypeMore(p, it, t);
    }
    assert Acceptable(p + [it]) ==> it in p + [it] && forall x :: x in p ==> x in p + [it];
  }

  lemma {:induction false} FirstObjection(items: seq<Item>, k: nat)
    requires k < |items| && Acceptable(items[..k]) && !(HasType(items[k]) && AmountOk(items[k]))
    ensures items != [] && !Acceptable(items) && Objection(items) == if HasType(items[k]) then BadAmount(items[k].e2e) else NoSequenceType(items[k].e2e)
  {
    var front := items[..|items| - 1];
    assert items[k] in items;
    if k < |front| {
      assert front[..k] == items[..k];
      FirstObjection(front, k);
    }
  }

  lemma {:induction false} NoneWithoutType(items: seq<Item>)
    requires Acceptable(items)
    ensures OfType(items, NoType) == []
  {
    if items != [] {
      assert items[|items| - 1] in items;
      NoneWithoutType(items[..|items| - 1]);
    }
  }

  method BuildBlock(t: SeqType, g: seq<Item>) returns (b: Block)
    ensures b == BlockOf(t, g)
  {
    var sum := 0;
    var entries: seq<Entry> := [];
    for i := 0 to |g|
      invariant sum == Total(g[..i]) && entries == Entries(g[..i])
    {
      PrefixMore(g, i);
      TotalMore(g[..i], g[i]);
      EntriesMore(g[..i], g[i]);
      sum := sum + g[i].amount;
      entries := entries + [EntryOf(g[i])];
    }
    WholePrefix(g);
    return Block(|g|, Cents(sum), t, entries);
  }

  predicate GroupsAre(groups: map<SeqType, seq<Item>>, items: seq<Item>) {
    forall t: SeqType :: (t in groups <==> OfType(items, t) != []) && (t in groups ==> groups[t] == OfType(items, t))
  }

  lemma {:induction false} GroupsMore(groups: map<SeqType, seq<Item>>, items: seq<Item>, k: nat)
    requires k < |items| && GroupsAre(groups, items[..k])
    ensures var t := items[k].seqType; GroupsAre(groups[t := (if t in groups then groups[t] else []) + [items[k]]], items[..k + 1])
  {
    var p, it := items[..k], items[k];
    var g := if it.seqType in groups then groups[it.seqType] else [];
    assert g == OfType(p, it.seqType);
    PrefixMore(items, k);
    var more := groups[it.seqType := g + [it]];
    forall t: SeqType
      ensures (t in more <==> OfType(items[..k + 1], t) != []) && (t in more ==> more[t] == OfType(items[..k + 1], t))
    {
      OfTypeMore(p, it, t);
    }
  }

  /** The first loop: the items sorted into groups, unless one of them is wrong. */
  method Grouped(items: seq<Item>) returns (wrong: Option<Built>, groups: map<SeqType, seq<Item>>, total: int)
    ensures wrong.None? <==> Acceptable(items)
    ensures wrong.Some? ==> items != [] && wrong.value == Objection(items)
    ensures wrong.None? ==> total == Total(items) && GroupsAre(groups, items)
  {
    groups, total := map[], 0;
    for k := 0 to |items|
      invariant Acceptable(items[..k]) && total == Total(items[..k])
      invariant GroupsAre(groups, items[..k])
    {
      var it := items[k];
      OneMore(items, k);
      if it.seqType != FRST && it.seqType != RCUR {
        FirstObjection(items, k);
        return Some(NoSequenceType(it.e2e)), groups, total;
      }
      if it.amount <= 0 || it.amount > MAX_AMOUNT {
        FirstObjection(items, k);
        return Some(BadAmount(it.e2e)), groups, total;
      }
      GroupsMore(groups, items, k);
      groups := groups[it.seqType := (if it.seqType in groups then groups[it.seqType] else []) + [it]];
      total := total + it.amount;
    }
    WholePrefix(items);
    return None, groups, total;
  }

  method BuildFile(msgId: string, items: seq<Item>) returns (r: Built)
    ensures r == if items == [] then NoItems else if !Acceptable(items) then Objection(items) else Built(FileOf(msgId, items), Total(items))
  {
    if |items| == 0 {
      return NoItems;
    }
    var wrong, groups, total := Grouped(items);
    if wrong.Some? {
      return wrong.value;
    }
    var blocks := Blocks(items, groups);
    return Built(File(msgId, |items|, Cents(total), blocks), total);
  }

  lemma {:induction false} TypesInGroups(items: seq<Item>, groups: map<SeqType, seq<Item>>)
    requires GroupsAre(groups, items)
    ensures TypesOf(items) == (if FRST in groups then [FRST] else []) + (if RCUR in groups then [RCUR] else [])
    ensures forall t :: t in TypesOf(items) ==> t in groups && groups[t] == OfType(items, t)
  {}

  /** The second loop: one block for each sequence type in use, in order. */
  method Blocks(items: seq<Item>, groups: map<SeqType, seq<Item>>) returns (blocks: seq<Block>)
    requires Acceptable(items) && GroupsAre(groups, items)
    ensures blocks == BlocksOf(items, TypesOf(items))
  {
    TypesInGroups(items, groups);
    var seqs := (if FRST in groups then [FRST] else []) + (if RCUR in groups then [RCUR] else []);
    blocks := [];
    for j := 0 to |seqs|
      invariant blocks == BlocksOf(items, seqs[..j])
    {
      BlocksMore(items, seqs[..j], seqs[j]);
      PrefixMore(seqs, j);
      assert seqs[j] in seqs;
      var block := BuildBlock(seqs[j], groups[seqs[j]]);
      blocks := blocks + [block];
    }
    WholePrefix(seqs);
  }

  // ---- what the bank reads ------------------------------------------------------------------

  function CountAll(blocks: seq<Block>): int { if blocks == [] then 0 else CountAll(blocks[..|blocks| - 1]) + blocks[|blocks| - 1].count }

  function SumAll(blocks: seq<Block>): int { if blocks == [] then 0 else SumAll(blocks[..|blocks| - 1]) + blocks[|blocks| - 1].ctrlSum }

  function PrintedSum(es: seq<Entry>): int { if es == [] then 0 else PrintedSum(es[..|es| - 1]) + es[|es| - 1].cents }

  function AllEntries(blocks: seq<Block>): seq<Entry> { if blocks == [] then [] else AllEntries(blocks[..|blocks| - 1]) + blocks[|blocks| - 1].entries }

  predicate WholeCents(items: seq<Item>) { forall it :: it in items ==> it.amount % CENT == 0 }

  lemma {:induction false} TotalMore(items: seq<Item>, it: Item)
    ensures Total(items + [it]) == Total(items) + it.amount
  {
    assert (items + [it])[..|items|] == items;
  }

  lemma {:induction false} EntriesMore(items: seq<Item>, it: Item)
    ensures Entries(items + [it]) == Entries(items) + [EntryOf(it)]
  {
    assert (items + [it])[..|items|] == items;
  }

  lemma {:induction false} OfTypeMore(items: seq<Item>, it: Item, t: SeqType)
    ensures OfType(items + [it], t) == if it.seqType == t then OfType(items, t) + [it] else OfType(items, t)
  {
    assert (items + [it])[..|items|] == items;
  }

  lemma {:induction false} AcceptableMore(items: seq<Item>)
    requires Acceptable(items) && items != []
    ensures var front, it := items[..|items| - 1], items[|items| - 1];
      items == front + [it] && Acceptable(front) && (it.seqType == FRST || it.seqType == RCUR)
  {
    assert items[|items| - 1] in items;
  }

  lemma {:induction false} Insert<T>(a: seq<T>, b: seq<T>, c: seq<T>, x: T)
    requires multiset(a) + multiset(b) == multiset(c)
    ensures multiset(a + [x]) + multiset(b) == multiset(a) + multiset(b + [x]) == multiset(c + [x])
  {}

  /** The two groups divide the items between them, and the money. */
  lemma {:induction false} GroupsDivide(items: seq<Item>)
    requires Acceptable(items)
    ensures |OfType(items, FRST)| + |OfType(items, RCUR)| == |items|
    ensures Total(OfType(items, FRST)) + Total(OfType(items, RCUR)) == Total(items)
  {
    if items != [] {
      var front, it := items[..|items| - 1], items[|items| - 1];
      AcceptableMore(items);
      GroupsDivide(front);
      OfTypeMore(front, it, FRST);
      OfTypeMore(front, it, RCUR);
      TotalMore(OfType(front, it.seqType), it);
    }
  }

  lemma {:induction false} EntriesDivide(items: seq<Item>)
    requires Acceptable(items)
    ensures multiset(Entries(OfType(items, FRST))) + multiset(Entries(OfType(items, RCUR))) == multiset(Entries(items))
  {
    if items != [] {
      var front, it := items[..|items| - 1], items[|items| - 1];
      AcceptableMore(items);
      EntriesDivide(front);
      OfTypeMore(front, it, FRST);
      OfTypeMore(front, it, RCUR);
      EntriesMore(front, it);
      EntriesMore(OfType(front, it.seqType), it);
      Insert(Entries(OfType(front, FRST)), Entries(OfType(front, RCUR)), Entries(front), EntryOf(it));
    }
  }

  lemma {:induction false} BlocksMore(items: seq<Item>, types: seq<SeqType>, t: SeqType)
    ensures BlocksOf(items, types + [t]) == BlocksOf(items, types) + [BlockOf(t, OfType(items, t))] && types + [] == types
    ensures BlocksOf(items, []) == [] && [] + [BlockOf(t, OfType(items, t))] == [BlockOf(t, OfType(items, t))]
  {
    assert (types + [t])[..|types|] == types;
  }

  predicate Empty(b: Block) { b.count == 0 && b.ctrlSum == 0 && b.entries == [] }

  /** At most two blocks, leaving out an empty one. */
  function Used(f: Block, r: Block): seq<Block> { (if f.count > 0 then [f] else []) + (if r.count > 0 then [r] else []) }

  lemma {:induction false} SumMore(bs: seq<Block>, b: Block)
    requires b.count == 0 ==> Empty(b)
    ensures var more := bs + if b.count > 0 then [b] else [];
      CountAll(more) == CountAll(bs) + b.count && AllEntries(more) == AllEntries(bs) + b.entries && SumAll(more) == SumAll(bs) + b.ctrlSum
  {
    assert (bs + [b])[..|bs|] == bs;
    assert bs + [] == bs && AllEntries(bs) + [] == AllEntries(bs);
  }

  lemma {:induction false} UsedSums(f: Block, r: Block)
    requires (f.count == 0 ==> Empty(f)) && (r.count == 0 ==> Empty(r))
    ensures CountAll(Used(f, r)) == f.count + r.count && AllEntries(Used(f, r)) == f.entries + r.entries && SumAll(Used(f, r)) == f.ctrlSum + r.ctrlSum
  {
    SumMore([], f);
    SumMore(if f.count > 0 then [f] else [], r);
    assert AllEntries([]) == [] && [] + f.entries == f.entries;
    assert [] + (if f.count > 0 then [f] else []) == if f.count > 0 then [f] else [];
  }

  lemma {:induction false} EmptyBlock(t: SeqType)
    ensures Empty(BlockOf(t, []))
  {
    CentsOfWhole(0, 0);
  }

  lemma {:induction false} BlocksAreUsed(items: seq<Item>)
    ensures BlocksOf(items, TypesOf(items)) == Used(BlockOf(FRST, OfType(items, FRST)), BlockOf(RCUR, OfType(items, RCUR)))
  {
    BlocksMore(items, [], FRST);
    assert [] + [FRST] == [FRST];
    var first := if OfType(items, FRST) != [] then [FRST] else [];
    BlocksMore(items, first, RCUR);
    assert TypesOf(items) == if OfType(items, RCUR) != [] then first + [RCUR] else first;
  }

  /** The blocks of a file, with everything summed over them. */
  lemma {:induction false} BlocksShape(items: seq<Item>, bs: seq<Block>, f: Block, r: Block)
    requires bs == BlocksOf(items, TypesOf(items)) && f == BlockOf(FRST, OfType(items, FRST)) && r == BlockOf(RCUR, OfType(items, RCUR))
    ensures CountAll(bs) == f.count + r.count && AllEntries(bs) == f.entries + r.entries && SumAll(bs) == f.ctrlSum + r.ctrlSum
    ensures bs == Used(f, r)
  {
    BlocksAreUsed(items);
    EmptyBlock(FRST);
    EmptyBlock(RCUR);
    UsedSums(f, r);
  }

  lemma {:induction false} TypesAreInUse(items: seq<Item>)
    ensures forall t :: t in TypesOf(items) ==> OfType(items, t) != []
  {}

  lemma {:induction false} BlocksAreGroups(items: seq<Item>, types: seq<SeqType>)
    requires forall t :: t in types ==> OfType(items, t) != []
    ensures forall b :: b in BlocksOf(items, types) ==> b == BlockOf(b.seqType, OfType(items, b.seqType)) && b.count > 0
  {
    if types != [] {
      assert types[|types| - 1] in types;
      BlocksAreGroups(items, types[..|types| - 1]);
    }
  }

  /** Every item is written exactly once, in the block of its own sequence type and in the order given; the blocks' counts add up to the header's. */
  lemma {:induction false} EveryItemWrittenOnce(msgId: string, items: seq<Item>)
    requires Acceptable(items)
    ensures var f := FileOf(msgId, items);
      && multiset(AllEntries(f.blocks)) == multiset(Entries(items))
      && CountAll(f.blocks) == f.count == |items|
      && forall b :: b in f.blocks ==> b == BlockOf(b.seqType, OfType(items, b.seqType)) && b.count > 0
  {
    var first, again := OfType(items, FRST), OfType(items, RCUR);
    GroupsDivide(items);
    EntriesDivide(items);
    TypesAreInUse(items);
    BlocksAreGroups(items, TypesOf(items));
    BlocksShape(items, BlocksOf(items, TypesOf(items)), BlockOf(FRST, first), BlockOf(RCUR, again));
  }

  lemma {:induction false} CentsOfWhole(amount: int, p: int)
    requires amount == p * CENT >= 0
    ensures Cents(amount) == p
  {
    RoundExact(p, CENT);
  }

  lemma {:induction false} FrontAndLast(items: seq<Item>)
    requires items != []
    ensures items == items[..|items| - 1] + [items[|items| - 1]] && items[|items| - 1] in items
    ensures forall it :: it in items[..|items| - 1] ==> it in items
  {}

  lemma {:induction false} PrintedIsExact(items: seq<Item>)
    requires WholeCents(items) && forall it :: it in items ==> it.amount > 0
    ensures PrintedSum(Entries(items)) * CENT == Total(items) >= 0
  {
    if items != [] {
      var front, it := items[..|items| - 1], items[|items| - 1];
      FrontAndLast(items);
      PrintedIsExact(front);
      CentsOfWhole(it.amount, it.amount / CENT);
      EntriesMore(front, it);
      PrintedMore(Entries(front), EntryOf(it));
    }
  }

  lemma {:induction false} PrintedMore(es: seq<Entry>, e: Entry)
    ensures PrintedSum(es + [e]) == PrintedSum(es) + e.cents
  {
    assert (es + [e])[..|es|] == es;
  }

  lemma {:induction false} BlockAddsUp(items: seq<Item>, t: SeqType)
    requires WholeCents(items) && Acceptable(items)
    ensures var b := BlockOf(t, OfType(items, t)); b.ctrlSum == PrintedSum(b.entries) && b.ctrlSum * CENT == Total(OfType(items, t))
  {
    var g := OfType(items, t);
    PrintedIsExact(g);
    CentsOfWhole(Total(g), PrintedSum(Entries(g)));
  }

  lemma {:induction false} BlocksAddUp(items: seq<Item>)
    requires Acceptable(items) && WholeCents(items)
    ensures forall b :: b in BlocksOf(items, TypesOf(items)) ==> b.ctrlSum == PrintedSum(b.entries)
  {
    TypesAreInUse(items);
    BlocksAreGroups(items, TypesOf(items));
    forall t: SeqType
      ensures BlockOf(t, OfType(items, t)).ctrlSum == PrintedSum(BlockOf(t, OfType(items, t)).entries)
    {
      BlockAddsUp(items, t);
    }
  }

  lemma {:induction false} GroupSumsAddUp(items: seq<Item>)
    requires Acceptable(items) && WholeCents(items)
    ensures var c := Cents(Total(items)); c * CENT == Total(items) && BlockOf(FRST, OfType(items, FRST)).ctrlSum + BlockOf(RCUR, OfType(items, RCUR)).ctrlSum == c
  {
    GroupsDivide(items);
    BlockAddsUp(items, FRST);
    BlockAddsUp(items, RCUR);
    PrintedIsExact(items);
    CentsOfWhole(Total(items), PrintedSum(Entries(items)));
  }

  /** When all amounts are whole cents the printed amounts add up to the printed control sum of their block, and those to the header's. */
  lemma {:induction false} ControlSumsAddUp(msgId: string, items: seq<Item>)
    requires Acceptable(items) && WholeCents(items)
    ensures var f := FileOf(msgId, items); SumAll(f.blocks) == f.ctrlSum && f.ctrlSum * CENT == Total(items)
    ensures forall b :: b in FileOf(msgId, items).blocks ==> b.ctrlSum == PrintedSum(b.entries)
  {
    BlocksAddUp(items);
    GroupSumsAddUp(items);
    BlocksShape(items, BlocksOf(items, TypesOf(items)), BlockOf(FRST, OfType(items, FRST)), BlockOf(RCUR, OfType(items, RCUR)));
  }

  /** With half cents they need not: two collections of half a cent print 0.01 each under a control sum of 0.01. */
  lemma {:induction false} HalfCentsDoNotAddUp(it: Item)
    requires it.amount == CENT / 2 && it.seqType == FRST
    ensures Acceptable([it, it])
    ensures var b := BlockOf(FRST, [it, it]); b.ctrlSum == 1 && PrintedSum(b.entries) == 2
  {
    TotalOfTwo(it);
    PrintedOfTwo(it);
    CentsOfWhole(CENT, 1);
  }

  lemma {:induction false} TotalOfTwo(it: Item)
    ensures Total([it, it]) == 2 * it.amount
  {
    TotalMore([it], it);
    TotalMore([], it);
    assert [it] + [it] == [it, it] && [] + [it] == [it];
  }

  lemma {:induction false} PrintedOfTwo(it: Item)
    ensures PrintedSum(Entries([it, it])) == 2 * EntryOf(it).cents
  {
    var e := EntryOf(it);
    EntriesMore([it], it);
    EntriesMore([], it);
    PrintedMore([e], e);
    PrintedMore([], e);
    assert [it] + [it] == [it, it] && [] + [it] == [it] && [] + [e] == [e];
  }

  /** The amounts can be written with d decimals. */
  predicate WithDecimals(items: seq<Item>, d: nat)
    requires d <= SCALE_DIGITS
  {
    forall it :: it in items ==> it.amount % Pow10(SCALE_DIGITS - d) == 0
  }

  predicate AddsUp(f: File) { SumAll(f.blocks) == f.ctrlSum && forall b :: b in f.blocks ==> b.ctrlSum == PrintedSum(b.entries) }

  /** Every file of amounts with d decimals adds up as printed. */
  ghost predicate AlwaysAddsUp(d: nat)
    requires d <= SCALE_DIGITS
  {
    forall msgId, items: seq<Item> :: Acceptable(items) && WithDecimals(items, d) ==> AddsUp(FileOf(msgId, items))
  }

  lemma {:induction false} TwoDecimalsAreCents(n: int, d: nat)
    requires d <= 2 && n % Pow10(SCALE_DIGITS - d) == 0
    ensures n % CENT == 0
  {
    assert Pow10(8) == CENT && Pow10(9) == 1_000_000_000 && Pow10(10) == 10_000_000_000;
    WholeMultiple(n);
  }

  lemma {:induction false} WholeMultiple(n: int)
    requires n % CENT == 0 || n % 1_000_000_000 == 0 || n % 10_000_000_000 == 0
    ensures n % CENT == 0
  {
    if n % 1_000_000_000 == 0 {
      assert n == n / 1_000_000_000 * 10 * CENT;
    } else if n % 10_000_000_000 == 0 {
      assert n == n / 10_000_000_000 * 100 * CENT;
    }
  }

  lemma {:induction false} HalfCentHas(d: nat)
    requires 3 <= d <= SCALE_DIGITS
    ensures CENT / 2 % Pow10(SCALE_DIGITS - d) == 0
  {
    assert Pow10(0) == 1 && Pow10(1) == 10 && Pow10(2) == 100 && Pow10(3) == 1_000;
    assert Pow10(4) == 10_000 && Pow10(5) == 100_000 && Pow10(6) == 1_000_000 && Pow10(7) == 10_000_000;
  }

  lemma {:induction false} TwoOfOneType(it: Item)
    requires it.seqType == FRST
    ensures OfType([it, it], FRST) == [it, it] && OfType([it, it], RCUR) == []
  {
    assert [it] + [it] == [it, it] && [] + [it] == [it];
    OfTypeMore([it], it, FRST);
    OfTypeMore([], it, FRST);
    OfTypeMore([it], it, RCUR);
    OfTypeMore([], it, RCUR);
  }

  lemma {:induction false} HalfCentFile(msgId: string, it: Item)
    requires it.amount == CENT / 2 && it.seqType == FRST
    ensures Acceptable([it, it]) && !AddsUp(FileOf(msgId, [it, it]))
  {
    var items, f := [it, it], BlockOf(FRST, [it, it]);
    HalfCentsDoNotAddUp(it);
    TwoOfOneType(it);
    BlocksShape(items, BlocksOf(items, TypesOf(items)), f, BlockOf(RCUR, []));
    assert f in FileOf(msgId, items).blocks;
  }

  /** So files add up exactly as long as amounts have at most two decimals. */
  lemma {:induction false} AddsUpExactly(d: nat)
    requires d <= SCALE_DIGITS
    ensures AlwaysAddsUp(d) <==> d <= 2
  {
    if d <= 2 {
      forall msgId, items: seq<Item> | Acceptable(items) && WithDecimals(items, d)
        ensures AddsUp(FileOf(msgId, items))
      {
        forall it | it in items
          ensures it.amount % CENT == 0
        {
          TwoDecimalsAreCents(it.amount, d);
        }
        ControlSumsAddUp(msgId, items);
      }
    } else {
      var it := Item("", CENT / 2, "", 0, "", "", "", "", FRST);
      HalfCentHas(d);
      HalfCentFile("", it);
      assert WithDecimals([it, it], d);
    }
  }
}
