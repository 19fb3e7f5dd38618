/** Expenses by category: how transactions are counted, and how the table is folded. */
module Expenses {
  import opened Outcomes
  import opened Text
  import opened Ordering

  const ROWS := 7
  const DAYS := 30

  /** A transaction; amounts are exact, and a date is a day number if it can be read. */
  datatype Row = Row(amount: Option<real>, categoryId: string, category: string, accountType: string,
                     date: Option<int>, status: string, billMonth: string)

  /** The day of the report and the names of the categories. */
  datatype Day = Day(today: int, month: string, lookup: map<string, string>)

  datatype Item = Item(category: string, past: real, future: real) {
    function Total(): real {
      past + future
    }

    function Part(later: bool): real {
      if later then future else past
    }
  }

  // ------------------------------------------------------------- transactions

  predicate Mentions(s: string, piece: string) {
    exists p :: 0 <= p <= |s| && Stands(s, p, piece)
  }

  function Name(row: Row): string {
    if row.category == "" then "Outros" else row.category
  }

  /** Moving one's own money, or paying the bill whose purchases count already. */
  predicate Transfer(row: Row) {
    var name := Lower(Name(row));
    || Stands(row.categoryId, 0, "04") || Mentions(name, "same person transfer")
    || row.categoryId == "05100000" || Mentions(name, "credit card payment")
  }

  /** What was spent: a positive amount on a card, a negative one elsewhere. */
  function Expense(row: Row): (x: real)
    ensures x >= 0.0
  {
    var amount := row.amount.GetOr(0.0);
    if row.accountType == "CREDIT" then if amount > 0.0 then amount else 0.0
    else if amount < 0.0 then -amount else 0.0
  }

  predicate Later(row: Row, day: Day)
    requires row.date.Some?
  {
    || row.date.value > day.today || row.status == "PENDING"
    || (row.billMonth != "" && !StringLeq(row.billMonth, day.month))
  }

  /** The row counts, either as past or, when `later`, as future. */
  predicate Counts(row: Row, day: Day, later: bool) {
    && !Transfer(row) && Expense(row) > 0.0 && row.date.Some?
    && Later(row, day) == later
    && (later || day.today - DAYS <= row.date.value <= day.today)
  }

  function Found(lookup: map<string, string>, id: string): string {
    if id in lookup then lookup[id] else ""
  }

  /** The name of the top category, else of the category itself, else the row's own. */
  function Label(row: Row, day: Day): string {
    var root := Found(day.lookup, if |row.categoryId| >= 2 then row.categoryId[..2] + "000000" else "");
    if root != "" then root
    else if Found(day.lookup, row.categoryId) != "" then Found(day.lookup, row.categoryId)
    else Name(row)
  }

  // ------------------------------------------------------- what it means to count

  /** The phrase stands in the text, in letters of either case. */
  ghost predicate Says(text: string, phrase: string) {
    exists a, b, c :: text == a + b + c && Spells(b, phrase)
  }

  lemma LowerMentions(text: string, phrase: string)
    requires Small(phrase)
    ensures Mentions(Lower(text), phrase) <==> Says(text, phrase)
  {
    hide Small, Spells;
    if p :| 0 <= p <= |text| && Stands(Lower(text), p, phrase) {
      var (a, b, c) := (text[..p], text[p..p + |phrase|], text[p + |phrase|..]);
      assert Lower(b) == phrase;
      LowerSpells(b, phrase);
      assert text == a + b + c;
    }
    if a, b, c :| text == a + b + c && Spells(b, phrase) {
      LowerSpells(b, phrase);
      assert text[|a|..|a| + |b|] == b;
      assert forall i :: 0 <= i < |phrase| ==> Lower(text)[|a| + i] == Lower(b)[i];
      assert Stands(Lower(text), |a|, phrase);
    }
  }

  /** The holder's own money, by its category or by what the category is called. */
  ghost predicate OwnMoney(row: Row) {
    || (|row.categoryId| >= 2 && row.categoryId[0] == '0' && row.categoryId[1] == '4') || row.categoryId == "05100000"
    || Says(row.category, "same person transfer") || Says(row.category, "credit card payment")
  }

  lemma TransferIff(row: Row)
    ensures Transfer(row) <==> OwnMoney(row)
  {
    hide Lower, Mentions, Says;
    assert Stands(row.categoryId, 0, "04") <==>
           |row.categoryId| >= 2 && row.categoryId[0] == '0' && row.categoryId[1] == '4' by {
      assert "04"[0] == '0' && "04"[1] == '4';
    }
    PhraseStands(row, "same person transfer");
    PhraseStands(row, "credit card payment");
  }

  lemma PhraseStands(row: Row, phrase: string)
    requires Small(phrase) && |phrase| > 6
    ensures Mentions(Lower(Name(row)), phrase) <==> Says(row.category, phrase)
  {
    LowerMentions(Name(row), phrase);
    if row.category == "" {
      assert |Name(row)| == 6;
    }
  }

  /** The transaction is dated, and it is to come: by its date, as it is pending, or by the month of its bill. */
  ghost predicate ToCome(row: Row, day: Day) {
    row.date.Some? && (row.date.value > day.today || row.status == "PENDING" || !TextLeq(row.billMonth, day.month))
  }

  /** Which transactions count, on which side of the table, and with which amount. */
  lemma CountsMeans(row: Row, day: Day, later: bool)
    ensures Counts(row, day, later) <==>
              && !OwnMoney(row) && row.amount.Some? && row.date.Some?
              && (if row.accountType == "CREDIT" then row.amount.value > 0.0 else row.amount.value < 0.0)
              && (if later then ToCome(row, day) else !ToCome(row, day) && 0 <= day.today - row.date.value <= 30)
    ensures Counts(row, day, later) ==>
              Expense(row) == if row.amount.value > 0.0 then row.amount.value else -row.amount.value
  {
    hide OwnMoney, StringLeq, TextLeq, Transfer;
    TransferIff(row);
    StringLeqIff(row.billMonth, day.month);
    NothingIsFirst(day.month);
  }

  lemma NothingIsFirst(text: string)
    ensures TextLeq("", text)
  {
  }

  predicate Names(day: Day, id: string, l: string) {
    id in day.lookup && day.lookup[id] == l && l != ""
  }

  ghost predicate Unnamed(day: Day, id: string) {
    forall l :: !Names(day, id, l)
  }

  /** The category at the top, where the first two characters say which. */
  function TopOf(id: string): string {
    if |id| < 2 then "" else [id[0], id[1], '0', '0', '0', '0', '0', '0']
  }

  /** A row stands under the name of its top category, else under that of its category;
      without either under its own, and without that under "Outros". */
  lemma LabelMeans(row: Row, day: Day, l: string)
    ensures Names(day, TopOf(row.categoryId), l) ==> Label(row, day) == l
    ensures Names(day, row.categoryId, l) && Unnamed(day, TopOf(row.categoryId)) ==> Label(row, day) == l
    ensures Unnamed(day, TopOf(row.categoryId)) && Unnamed(day, row.categoryId) ==>
              if row.category != "" then Label(row, day) == row.category else Label(row, day) == "Outros"
  {
    var id := row.categoryId;
    var (top, own) := (Found(day.lookup, TopOf(id)), Found(day.lookup, id));
    assert |id| >= 2 ==> id[..2] + "000000" == TopOf(id);
    assert top != "" ==> Names(day, TopOf(id), top);
    assert own != "" ==> Names(day, id, own);
  }

  // -------------------------------------------------------------------- sums

  /** What the rows add to one side of the table, in all or under one label. */
  function Spent(rows: seq<Row>, day: Day, later: bool, only: Option<string>): real {
    if rows == [] then 0.0
    else
      var last := rows[|rows| - 1];
      Spent(rows[..|rows| - 1], day, later, only) +
      (if Counts(last, day, later) && (only.None? || only.value == Label(last, day)) then Expense(last) else 0.0)
  }

  predicate Labelled(rows: seq<Row>, day: Day, label': string) {
    exists i :: 0 <= i < |rows| && CountsUnder(rows[i], day, label')
  }

  predicate CountsUnder(row: Row, day: Day, label': string) {
    (Counts(row, day, false) || Counts(row, day, true)) && Label(row, day) == label'
  }

  // -------------------------------------------------------------------- table

  function Sum(items: seq<Item>, later: bool): real {
    if items == [] then 0.0 else items[0].Part(later) + Sum(items[1..], later)
  }

  lemma {:induction false} SumConcat(a: seq<Item>, b: seq<Item>, later: bool)
    ensures Sum(a + b, later) == Sum(a, later) + Sum(b, later)
  {
    if a == [] {
      assert a + b == b;
    } else {
      assert (a + b)[1..] == a[1..] + b;
      SumConcat(a[1..], b, later);
    }
  }

  predicate DistinctCategories(items: seq<Item>) {
    forall i, j :: 0 <= i < j < |items| ==> items[i].category != items[j].category
  }

  /** An item holds exactly what the rows of its category add up to. */
  predicate Exact(item: Item, rows: seq<Row>, day: Day) {
    && item.past == Spent(rows, day, false, Some(item.category))
    && item.future == Spent(rows, day, true, Some(item.category))
    && Labelled(rows, day, item.category)
  }

  predicate Listed(items: seq<Item>, label': string) {
    exists i :: 0 <= i < |items| && items[i].category == label'
  }

  /** One exact item for each category that occurs, and nothing else. */
  ghost predicate Tallied(items: seq<Item>, rows: seq<Row>, day: Day) {
    && DistinctCategories(items)
    && (forall i :: 0 <= i < |items| ==> Exact(items[i], rows, day))
    && (forall l :: Labelled(rows, day, l) ==> Listed(items, l))
  }

  lemma {:induction false} UnlistedIsNothing(rows: seq<Row>, day: Day, l: string, later: bool)
    requires !Labelled(rows, day, l)
    ensures Spent(rows, day, later, Some(l)) == 0.0
  {
    if rows != [] {
      var n := |rows| - 1;
      assert !CountsUnder(rows[n], day, l);
      forall i | 0 <= i < n ensures !CountsUnder(rows[..n][i], day, l) {
        assert !CountsUnder(rows[i], day, l);
      }
      UnlistedIsNothing(rows[..n], day, l, later);
    }
  }

  lemma SpentNext(rows: seq<Row>, row: Row, day: Day, later: bool, only: Option<string>)
    ensures Spent(rows + [row], day, later, only) == Spent(rows, day, later, only) +
            (if Counts(row, day, later) && (only.None? || only.value == Label(row, day)) then Expense(row) else 0.0)
  {
    assert (rows + [row])[..|rows|] == rows;
  }

  lemma LabelledNext(rows: seq<Row>, row: Row, day: Day, l: string)
    ensures Labelled(rows + [row], day, l) <==> Labelled(rows, day, l) || CountsUnder(row, day, l)
  {
    if Labelled(rows, day, l) {
      var i :| 0 <= i < |rows| && CountsUnder(rows[i], day, l);
      assert CountsUnder((rows + [row])[i], day, l);
    }
    if CountsUnder(row, day, l) {
      assert CountsUnder((rows + [row])[|rows|], day, l);
    }
  }

  /** A row that does not count changes nothing. */
  lemma Skipped(items: seq<Item>, rows: seq<Row>, row: Row, day: Day)
    requires Tallied(items, rows, day) && !Counts(row, day, false) && !Counts(row, day, true)
    ensures Tallied(items, rows + [row], day)
  {
    forall i | 0 <= i < |items| ensures Exact(items[i], rows + [row], day) {
      SpentNext(rows, row, day, false, Some(items[i].category));
      SpentNext(rows, row, day, true, Some(items[i].category));
      LabelledNext(rows, row, day, items[i].category);
    }
    forall l | Labelled(rows + [row], day, l) ensures Listed(items, l) {
      LabelledNext(rows, row, day, l);
    }
  }

  function Raised(item: Item, later: bool, amount: real): Item {
    if later then item.(future := item.future + amount) else item.(past := item.past + amount)
  }

  /** An item for the row's label, holding what the rows so far add to it. */
  predicate Ready(items: seq<Item>, k: nat, rows: seq<Row>, row: Row, day: Day) {
    && k < |items| && items[k].category == Label(row, day)
    && (forall later :: items[k].Part(later) == Spent(rows, day, later, Some(items[k].category)))
  }

  /** A row that counts raises the item of its label by its expense. */
  lemma Added(items: seq<Item>, k: nat, rows: seq<Row>, row: Row, day: Day, later: bool)
    requires Counts(row, day, later) && Ready(items, k, rows, row, day)
    requires DistinctCategories(items) && forall l :: Labelled(rows, day, l) ==> Listed(items, l)
    requires forall i :: 0 <= i < |items| && i != k ==> Exact(items[i], rows, day)
    ensures Tallied(items[k := Raised(items[k], later, Expense(row))], rows + [row], day)
  {
    var next := items[k := Raised(items[k], later, Expense(row))];
    forall i | 0 <= i < |next| ensures Exact(next[i], rows + [row], day) {
      SpentNext(rows, row, day, false, Some(next[i].category));
      SpentNext(rows, row, day, true, Some(next[i].category));
      LabelledNext(rows, row, day, next[i].category);
      assert items[k].Part(false) == items[k].past && items[k].Part(true) == items[k].future;
    }
    forall l | Labelled(rows + [row], day, l) ensures Listed(next, l) {
      LabelledNext(rows, row, day, l);
      assert CountsUnder(row, day, l) ==> items[k].category == l;
      var i :| 0 <= i < |items| && items[i].category == l;
      assert next[i].category == l;
    }
  }

  lemma {:induction false} SumUpdated(items: seq<Item>, k: nat, item: Item, later: bool)
    requires k < |items|
    ensures Sum(items[k := item], later) == Sum(items, later) - items[k].Part(later) + item.Part(later)
  {
    if k > 0 {
      assert items[k := item][1..] == items[1..][k - 1 := item];
      SumUpdated(items[1..], k - 1, item, later);
    } else {
      assert items[k := item][1..] == items[1..];
    }
  }

  method IndexOf(items: seq<Item>, category: string) returns (k: nat)
    ensures k <= |items| && (k < |items| ==> items[k].category == category)
    ensures k == |items| ==> !Listed(items, category)
  {
    k := 0;
    while k < |items| && items[k].category != category
      invariant k <= |items| && forall i :: 0 <= i < k ==> items[i].category != category
    {
      k := k + 1;
    }
  }

  /** The item of a category, appended empty if there is none yet. */
  method SetDefault(items: seq<Item>, category: string, ghost rows: seq<Row>, ghost day: Day)
    returns (next: seq<Item>, k: nat)
    requires Tallied(items, rows, day)
    ensures k < |next| && next[k].category == category && DistinctCategories(next) && items <= next
    ensures forall i :: 0 <= i < |next| && i != k ==> Exact(next[i], rows, day)
    ensures forall later :: next[k].Part(later) == Spent(rows, day, later, Some(category))
    ensures forall later :: Sum(next, later) == Sum(items, later)
    ensures forall l :: Labelled(rows, day, l) ==> Listed(next, l)
  {
    k := IndexOf(items, category);
    next := items;
    if k == |items| {
      next := items + [Item(category, 0.0, 0.0)];
      forall later ensures Sum(next, later) == Sum(items, later) {
        SumConcat(items, [Item(category, 0.0, 0.0)], later);
      }
      forall later ensures Spent(rows, day, later, Some(category)) == 0.0 {
        UnlistedIsNothing(rows, day, category, later);
      }
      assert forall i :: 0 <= i < |items| ==> items[i].category != category;
      assert forall l :: Listed(items, l) ==> Listed(next, l) by {
        forall l | Listed(items, l) ensures Listed(next, l) {
          var i :| 0 <= i < |items| && items[i].category == l;
          assert next[i].category == l;
        }
      }
    } else {
      assert Exact(items[k], rows, day);
    }
  }

  method Tally(rows: seq<Row>, day: Day) returns (totals: seq<Item>)
    ensures Tallied(totals, rows, day)
    ensures forall later :: Sum(totals, later) == Spent(rows, day, later, None)
  {
    totals := [];
    for n := 0 to |rows|
      invariant Tallied(totals, rows[..n], day)
      invariant forall later :: Sum(totals, later) == Spent(rows[..n], day, later, None)
    {
      var row := rows[n];
      ghost var before := rows[..n];
      assert rows[..n + 1] == before + [row];
      SpentNext(before, row, day, false, None);
      SpentNext(before, row, day, true, None);
      if Transfer(row) || Expense(row) <= 0.0 || row.date.None? {
        Skipped(totals, before, row, day);
        continue;
      }
      var isFuture := Later(row, day);
      var isPast := !isFuture && day.today - DAYS <= row.date.value <= day.today;
      if !isFuture && !isPast {
        Skipped(totals, before, row, day);
        continue;
      }
      var k;
      totals, k := SetDefault(totals, Label(row, day), before, day);
      var raised := Raised(totals[k], isFuture, Expense(row));
      Added(totals, k, before, row, day, isFuture);
      SumUpdated(totals, k, raised, false);
      SumUpdated(totals, k, raised, true);
      totals := totals[k := raised];
    }
    assert rows[..|rows|] == rows;
  }

  // ------------------------------------------------------------------ folding

  predicate Descending(items: seq<Item>) {
    forall i, j :: 0 <= i < j < |items| ==> items[i].Total() >= items[j].Total()
  }

  /** `sorted(..., reverse=True)`: largest first, equal ones as they were. */
  function Insert(item: Item, items: seq<Item>): (r: seq<Item>)
    ensures multiset(r) == multiset(items) + multiset{item}
  {
    if items == [] then [item]
    else if item.Total() >= items[0].Total() then [item] + items
    else
      assert items == [items[0]] + items[1..];
      [items[0]] + Insert(item, items[1..])
  }

  function Ranked(items: seq<Item>): (r: seq<Item>)
    ensures multiset(r) == multiset(items)
  {
    if items == [] then []
    else
      assert items == [items[0]] + items[1..];
      Insert(items[0], Ranked(items[1..]))
  }

  lemma {:induction false} InsertKeepsSum(item: Item, items: seq<Item>, later: bool)
    ensures Sum(Insert(item, items), later) == item.Part(later) + Sum(items, later)
  {
    var r := Insert(item, items);
    if items == [] {
    } else if item.Total() >= items[0].Total() {
      assert r[1..] == items;
    } else {
      InsertKeepsSum(item, items[1..], later);
      assert r[1..] == Insert(item, items[1..]);
    }
  }

  lemma InsertMembers(item: Item, items: seq<Item>)
    ensures forall i :: 0 <= i < |Insert(item, items)| ==>
              Insert(item, items)[i] == item || Insert(item, items)[i] in items
  {
    var r := Insert(item, items);
    forall i | 0 <= i < |r| ensures r[i] == item || r[i] in items {
      assert r[i] in multiset(r);
    }
  }

  lemma {:induction false} InsertRanks(item: Item, items: seq<Item>)
    requires Descending(items)
    ensures Descending(Insert(item, items))
  {
    if items != [] && item.Total() < items[0].Total() {
      InsertRanks(item, items[1..]);
      InsertMembers(item, items[1..]);
    }
  }

  lemma {:induction false} InsertKeepsDistinct(item: Item, items: seq<Item>)
    requires DistinctCategories(items) && !Listed(items, item.category)
    ensures DistinctCategories(Insert(item, items))
  {
    if items != [] && item.Total() < items[0].Total() {
      InsertKeepsDistinct(item, items[1..]);
      InsertMembers(item, items[1..]);
    }
  }

  lemma {:induction false} RankedIsRanked(items: seq<Item>)
    ensures Descending(Ranked(items))
    ensures forall later :: Sum(Ranked(items), later) == Sum(items, later)
  {
    if items != [] {
      RankedIsRanked(items[1..]);
      var rest := Ranked(items[1..]);
      InsertRanks(items[0], rest);
      forall later ensures Sum(Ranked(items), later) == Sum(items, later) {
        InsertKeepsSum(items[0], rest, later);
      }
    }
  }

  lemma {:induction false} RankedKeepsDistinct(items: seq<Item>)
    requires DistinctCategories(items)
    ensures DistinctCategories(Ranked(items))
  {
    if items != [] {
      var rest := Ranked(items[1..]);
      RankedKeepsDistinct(items[1..]);
      forall i | 0 <= i < |rest| ensures rest[i].category != items[0].category {
        assert rest[i] in multiset(rest) && rest[i] in items[1..];
      }
      InsertKeepsDistinct(items[0], rest);
    }
  }

  /** Ranking keeps the table exact and complete. */
  lemma RankedIsTallied(items: seq<Item>, rows: seq<Row>, day: Day)
    requires Tallied(items, rows, day)
    ensures Tallied(Ranked(items), rows, day)
  {
    var r := Ranked(items);
    RankedKeepsDistinct(items);
    forall i | 0 <= i < |r| ensures Exact(r[i], rows, day) {
      assert r[i] in multiset(r) && r[i] in items;
    }
    forall l | Labelled(rows, day, l) ensures Listed(r, l) {
      var i :| 0 <= i < |items| && items[i].category == l;
      assert items[i] in multiset(items) && items[i] in r;
    }
  }

  /** The labels under which rows count. */
  function Labels(rows: seq<Row>, day: Day): set<string> {
    set row | row in rows && (Counts(row, day, false) || Counts(row, day, true)) :: Label(row, day)
  }

  lemma LabelsAreLabelled(rows: seq<Row>, day: Day, l: string)
    ensures l in Labels(rows, day) <==> Labelled(rows, day, l)
  {
    if l in Labels(rows, day) {
      var row :| row in rows && (Counts(row, day, false) || Counts(row, day, true)) && Label(row, day) == l;
      var i :| 0 <= i < |rows| && rows[i] == row;
      assert CountsUnder(rows[i], day, l);
    }
  }

  lemma {:induction false} DistinctCount(items: seq<Item>, labels: set<string>)
    requires DistinctCategories(items)
    requires forall l :: l in labels <==> Listed(items, l)
    ensures |labels| == |items|
    decreases items
  {
    if items == [] {
      forall l ensures l !in labels {
        assert !Listed(items, l);
      }
      assert labels == {};
    } else {
      assert items[0].category in labels;
      forall l ensures l in labels - {items[0].category} <==> Listed(items[1..], l) {
        if Listed(items, l) && l != items[0].category {
          var i :| 0 <= i < |items| && items[i].category == l;
          assert items[1..][i - 1].category == l;
        }
        if Listed(items[1..], l) {
          var i :| 0 <= i < |items| - 1 && items[1..][i].category == l;
          assert items[i + 1].category == l;
        }
      }
      DistinctCount(items[1..], labels - {items[0].category});
    }
  }

  /** The ranked items are the labels' items. */
  lemma RankedLabels(ranked: seq<Item>, rows: seq<Row>, day: Day)
    requires Tallied(ranked, rows, day)
    ensures forall l :: l in Labels(rows, day) <==> Listed(ranked, l)
    ensures |Labels(rows, day)| == |ranked|
  {
    forall l ensures l in Labels(rows, day) <==> Listed(ranked, l) {
      LabelsAreLabelled(rows, day, l);
      if Listed(ranked, l) {
        var i :| 0 <= i < |ranked| && ranked[i].category == l;
        assert Exact(ranked[i], rows, day);
      }
    }
    DistinctCount(ranked, Labels(rows, day));
  }

  method Fold(ranked: seq<Item>) returns (table: seq<Item>)
    ensures |ranked| <= ROWS ==> table == ranked
    ensures |ranked| > ROWS ==>
              |table| == ROWS + 1 && table[..ROWS] == ranked[..ROWS] && table[ROWS].category == "Outras"
    ensures forall later :: Sum(table, later) == Sum(ranked, later)
  {
    if |ranked| <= ROWS {
      return ranked;
    }
    var visible, remainder := ranked[..ROWS], ranked[ROWS..];
    var others := Item("Outras", Sum(remainder, false), Sum(remainder, true));
    table := visible + [others];
    assert ranked == visible + remainder;
    forall later ensures Sum(table, later) == Sum(ranked, later) {
      SumConcat(visible, remainder, later);
      SumConcat(visible, [others], later);
    }
  }

  /** These rows are whole categories, and no category left out is larger. */
  ghost predicate Leading(shown: seq<Item>, rows: seq<Row>, day: Day) {
    && Descending(shown) && DistinctCategories(shown)
    && (forall i :: 0 <= i < |shown| ==> Exact(shown[i], rows, day))
    && (forall l, i :: l in Labels(rows, day) && !Listed(shown, l) && 0 <= i < |shown| ==>
         Spent(rows, day, false, Some(l)) + Spent(rows, day, true, Some(l)) <= shown[i].Total())
  }

  lemma PlaceOfLeftOut(ranked: seq<Item>, n: nat, l: string) returns (j: nat)
    requires n <= |ranked| && Listed(ranked, l) && !Listed(ranked[..n], l)
    ensures n <= j < |ranked| && ranked[j].category == l
  {
    j :| 0 <= j < |ranked| && ranked[j].category == l;
    assert forall k :: 0 <= k < n ==> ranked[..n][k].category != l;
  }

  lemma FirstOnesLead(ranked: seq<Item>, n: nat, rows: seq<Row>, day: Day)
    requires Tallied(ranked, rows, day) && Descending(ranked) && n <= |ranked|
    ensures Leading(ranked[..n], rows, day)
  {
    RankedLabels(ranked, rows, day);
    forall l, i | l in Labels(rows, day) && !Listed(ranked[..n], l) && 0 <= i < n
      ensures Spent(rows, day, false, Some(l)) + Spent(rows, day, true, Some(l)) <= ranked[..n][i].Total()
    {
      var j := PlaceOfLeftOut(ranked, n, l);
      assert Exact(ranked[j], rows, day) && ranked[i].Total() >= ranked[j].Total();
    }
  }

  /** `pluggy_expense_category_summary`. Nothing that counts is lost or counted
      twice; the first rows are whole categories, the largest first, and a last
      row takes together whatever else there is. */
  method Summary(rows: seq<Row>, day: Day) returns (table: seq<Item>)
    ensures forall later :: Sum(table, later) == Spent(rows, day, later, None)
    ensures |table| <= 8 && (|Labels(rows, day)| > 7 ==> |table| == 8)
    ensures |Labels(rows, day)| <= ROWS ==> Tallied(table, rows, day) && |table| == |Labels(rows, day)|
    ensures |Labels(rows, day)| > ROWS ==> |table| == ROWS + 1 && table[ROWS].category == "Outras"
    ensures Leading(if |table| <= ROWS then table else table[..ROWS], rows, day)
  {
    var totals := Tally(rows, day);
    var ranked := Ranked(totals);
    RankedIsRanked(totals);
    RankedIsTallied(totals, rows, day);
    RankedLabels(ranked, rows, day);
    table := Fold(ranked);
    FirstOnesLead(ranked, if |ranked| <= ROWS then |ranked| else ROWS, rows, day);
    assert ranked[..|ranked|] == ranked;
  }
}
