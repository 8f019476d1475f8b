/**
 * The "Títulos premiados" list: the prize table flattened into one entry per
 * number, the main-prize subset, the sold/available split, and the view the
 * tabs select. The two UI flags (`activeTab`, `showAllPrizes`) are inputs.
 */
module PrizeSection {
  import opened Sequences

  /** One awarded number of a tier. */
  datatype Ticket = Ticket(number: string, sold: bool)

  /** A prize value, in reais, and the numbers that win it. */
  datatype PrizeTier = PrizeTier(value: int, numbers: seq<Ticket>)

  /** `{ ...item, value: tier.value }` */
  datatype Prize = Prize(number: string, sold: bool, value: int)

  /** `"todas" | "disponiveis" | "compradas"` */
  datatype Tab = All | Available | Purchased

  /** Tiers worth at least this much are the main prizes. */
  const MainPrizeValue: int := 1000

  function Tagged(t: PrizeTier): (r: seq<Prize>)
    ensures |r| == |t.numbers|
    ensures forall i :: 0 <= i < |r| ==> r[i] == Prize(t.numbers[i].number, t.numbers[i].sold, t.value)
  {
    seq(|t.numbers|, i requires 0 <= i < |t.numbers| => Prize(t.numbers[i].number, t.numbers[i].sold, t.value))
  }

  /** `tiers.flatMap(tier => tier.numbers.map(...))` */
  function Flatten(tiers: seq<PrizeTier>): seq<Prize>
  {
    if tiers == [] then [] else Tagged(tiers[0]) + Flatten(tiers[1..])
  }

  function TotalSize(tiers: seq<PrizeTier>): nat
  {
    if tiers == [] then 0 else |tiers[0].numbers| + TotalSize(tiers[1..])
  }

  predicate IsMainTier(t: PrizeTier) { t.value >= MainPrizeValue }
  predicate IsMainPrize(p: Prize) { p.value >= MainPrizeValue }
  predicate IsSold(p: Prize) { p.sold }
  predicate IsUnsold(p: Prize) { !p.sold }

  function AllPrizes(tiers: seq<PrizeTier>): seq<Prize>
  {
    Flatten(tiers)
  }

  /** `mainPrizeTiers.flatMap(...)`, with `mainPrizeTiers` the tiers worth at least 1000. */
  function MainPrizes(tiers: seq<PrizeTier>): seq<Prize>
  {
    Flatten(Filter(tiers, IsMainTier))
  }

  function AvailablePrizes(tiers: seq<PrizeTier>): seq<Prize>
  {
    Filter(AllPrizes(tiers), IsUnsold)
  }

  function SoldPrizes(tiers: seq<PrizeTier>): seq<Prize>
  {
    Filter(AllPrizes(tiers), IsSold)
  }

  /** `prizesToShow`: every prize, or only the main ones. */
  function Shown(tiers: seq<PrizeTier>, showAllPrizes: bool): seq<Prize>
  {
    if showAllPrizes then AllPrizes(tiers) else MainPrizes(tiers)
  }

  /** `getFilteredPrizes`. */
  function FilteredPrizes(tiers: seq<PrizeTier>, activeTab: Tab, showAllPrizes: bool): seq<Prize>
  {
    var shown := Shown(tiers, showAllPrizes);
    match activeTab
    case Available => Filter(shown, IsUnsold)
    case Purchased => Filter(shown, IsSold)
    case All => shown
  }

  /** One entry per number of every tier: the list is as long as the tiers together. */
  lemma {:induction false} FlattenLength(tiers: seq<PrizeTier>)
    ensures |Flatten(tiers)| == TotalSize(tiers)
    decreases |tiers|
  {
    if tiers != [] {
      FlattenLength(tiers[1..]);
    }
  }

  lemma {:induction false} FlattenConcat(a: seq<PrizeTier>, b: seq<PrizeTier>)
    ensures Flatten(a + b) == Flatten(a) + Flatten(b)
    decreases |a|
  {
    if a == [] {
      assert a + b == b;
    } else {
      assert (a + b)[1..] == a[1..] + b;
      FlattenConcat(a[1..], b);
    }
  }

  /**
   * Each entry is one of a tier's numbers, carrying that tier's value and sold flag,
   * and each of a tier's numbers is an entry.
   */
  lemma {:induction false} FlattenEntries(tiers: seq<PrizeTier>, p: Prize)
    ensures p in Flatten(tiers) <==>
      exists i, j :: 0 <= i < |tiers| && 0 <= j < |tiers[i].numbers|
        && p == Prize(tiers[i].numbers[j].number, tiers[i].numbers[j].sold, tiers[i].value)
    decreases |tiers|
  {
    if tiers != [] {
      FlattenEntries(tiers[1..], p);
      var rest := tiers[1..];
      if p in Flatten(tiers) {
        if p in Tagged(tiers[0]) {
          var j :| 0 <= j < |Tagged(tiers[0])| && Tagged(tiers[0])[j] == p;
          assert 0 < |tiers| && 0 <= j < |tiers[0].numbers|;
        } else {
          assert p in Flatten(rest);
          var i, j :| 0 <= i < |rest| && 0 <= j < |rest[i].numbers|
            && p == Prize(rest[i].numbers[j].number, rest[i].numbers[j].sold, rest[i].value);
          assert tiers[i + 1] == rest[i];
        }
      }
      if exists i, j :: 0 <= i < |tiers| && 0 <= j < |tiers[i].numbers|
          && p == Prize(tiers[i].numbers[j].number, tiers[i].numbers[j].sold, tiers[i].value) {
        var i, j :| 0 <= i < |tiers| && 0 <= j < |tiers[i].numbers|
          && p == Prize(tiers[i].numbers[j].number, tiers[i].numbers[j].sold, tiers[i].value);
        if i == 0 {
          assert Tagged(tiers[0])[j] == p;
        } else {
          assert rest[i - 1] == tiers[i];
        }
      }
    }
  }

  /**
   * `mainPrizes` is exactly the entries of `allPrizes` worth at least 1000, in
   * the same order: filtering the tiers first and the entries afterwards agree.
   */
  lemma {:induction false} MainPrizesAreFiltered(tiers: seq<PrizeTier>)
    ensures MainPrizes(tiers) == Filter(AllPrizes(tiers), IsMainPrize)
    decreases |tiers|
  {
    if tiers != [] {
      var t := tiers[0];
      MainPrizesAreFiltered(tiers[1..]);
      FilterConcat(Tagged(t), Flatten(tiers[1..]), IsMainPrize);
      assert Filter(tiers, IsMainTier) == (if IsMainTier(t) then [t] else []) + Filter(tiers[1..], IsMainTier);
      FlattenConcat(if IsMainTier(t) then [t] else [], Filter(tiers[1..], IsMainTier));
      if IsMainTier(t) {
        FilterKeepsAll(Tagged(t), IsMainPrize);
        assert Flatten([t]) == Tagged(t) + Flatten([]);
      } else {
        FilterDropsAll(Tagged(t), IsMainPrize);
      }
    }
  }

  /**
   * `availablePrizes` and `soldPrizes` split `allPrizes`: every entry lands in
   * exactly one of them, so the available count never exceeds the total.
   */
  lemma AvailableAndSoldPartition(tiers: seq<PrizeTier>)
    ensures |AvailablePrizes(tiers)| + |SoldPrizes(tiers)| == |AllPrizes(tiers)|
    ensures multiset(AvailablePrizes(tiers)) + multiset(SoldPrizes(tiers)) == multiset(AllPrizes(tiers))
    ensures forall p :: p in AvailablePrizes(tiers) ==> !p.sold
    ensures forall p :: p in SoldPrizes(tiers) ==> p.sold
    ensures |AvailablePrizes(tiers)| <= |AllPrizes(tiers)|
  {
    FilterPartition(AllPrizes(tiers), IsUnsold, IsSold);
  }

  /**
   * The tabs: "disponiveis" shows exactly the unsold entries of the shown set,
   * "compradas" exactly the sold ones, "todas" the whole set; every view keeps
   * the shown set's order.
   */
  lemma TabsSelect(tiers: seq<PrizeTier>, activeTab: Tab, showAllPrizes: bool)
    ensures var shown := Shown(tiers, showAllPrizes);
      var view := FilteredPrizes(tiers, activeTab, showAllPrizes);
      && IsSubsequence(view, shown)
      && (activeTab == All ==> view == shown)
      && (activeTab == Available ==> forall p :: p in view <==> p in shown && !p.sold)
      && (activeTab == Purchased ==> forall p :: p in view <==> p in shown && p.sold)
  {
    var shown := Shown(tiers, showAllPrizes);
    match activeTab
    case All =>
      SubsequenceOfItself(shown);
    case Available =>
      FilterIsSubsequence(shown, IsUnsold);
      forall p | p in shown && !p.sold ensures p in Filter(shown, IsUnsold) {
        FilterKeepsMatches(shown, IsUnsold, p);
      }
    case Purchased =>
      FilterIsSubsequence(shown, IsSold);
      forall p | p in shown && p.sold ensures p in Filter(shown, IsSold) {
        FilterKeepsMatches(shown, IsSold, p);
      }
  }

  /** The page's prize table. */
  const PrizeTiers: seq<PrizeTier> := [
    PrizeTier(10000, [
      Ticket("4201001", true), Ticket("4201002", false), Ticket("4201003", false)]),
    PrizeTier(1000, [
      Ticket("4204001", true), Ticket("4204002", true), Ticket("4204003", false),
      Ticket("4204004", false), Ticket("4204005", false), Ticket("4204006", false)]),
    PrizeTier(500, [
      Ticket("4202001", true), Ticket("4202002", true), Ticket("4202003", false),
      Ticket("4202004", false), Ticket("4202005", false), Ticket("4202006", false),
      Ticket("4202007", false), Ticket("4202008", false), Ticket("4202009", false),
      Ticket("4202010", false), Ticket("4202011", false), Ticket("4202012", false),
      Ticket("4202013", false), Ticket("4202014", false), Ticket("4202015", false)]),
    PrizeTier(250, [
      Ticket("4203001", true), Ticket("4203002", true), Ticket("4203003", true),
      Ticket("4203004", false), Ticket("4203005", false), Ticket("4203006", false),
      Ticket("4203007", false), Ticket("4203008", false), Ticket("4203009", false),
      Ticket("4203010", false), Ticket("4203011", false), Ticket("4203012", false),
      Ticket("4203013", false), Ticket("4203014", false), Ticket("4203015", false)])
  ]

  /** Numbers sold in a tier's list. */
  function CountSold(numbers: seq<Ticket>): nat
  {
    if numbers == [] then 0 else (if numbers[0].sold then 1 else 0) + CountSold(numbers[1..])
  }

  /** Numbers sold over all tiers. */
  function TotalSold(tiers: seq<PrizeTier>): nat
  {
    if tiers == [] then 0 else CountSold(tiers[0].numbers) + TotalSold(tiers[1..])
  }

  /** A tier contributes one sold entry per sold number. */
  lemma {:induction false} TaggedSold(t: PrizeTier)
    ensures |Filter(Tagged(t), IsSold)| == CountSold(t.numbers)
    decreases |t.numbers|
  {
    if t.numbers != [] {
      var rest := PrizeTier(t.value, t.numbers[1..]);
      TaggedSold(rest);
      assert Tagged(t) == [Tagged(t)[0]] + Tagged(rest);
      FilterConcat([Tagged(t)[0]], Tagged(rest), IsSold);
    }
  }

  /** `soldPrizes` has one entry per sold number of every tier. */
  lemma {:induction false} SoldPrizesCount(tiers: seq<PrizeTier>)
    ensures |SoldPrizes(tiers)| == TotalSold(tiers)
    decreases |tiers|
  {
    if tiers != [] {
      SoldPrizesCount(tiers[1..]);
      FilterConcat(Tagged(tiers[0]), Flatten(tiers[1..]), IsSold);
      TaggedSold(tiers[0]);
    }
  }

  lemma PageTotal()
    ensures |AllPrizes(PrizeTiers)| == 39
  {
    FlattenLength(PrizeTiers);
    assert TotalSize(PrizeTiers) == 39;
  }

  lemma PageMain()
    ensures |MainPrizes(PrizeTiers)| == 9
  {
    var t := PrizeTiers;
    assert t == t[..2] + t[2..];
    FilterConcat(t[..2], t[2..], IsMainTier);
    FilterKeepsAll(t[..2], IsMainTier);
    FilterDropsAll(t[2..], IsMainTier);
    FlattenLength(t[..2]);
    var main := t[..2];
    assert main[1..][1..] == [];
    assert TotalSize(main[1..]) == |t[1].numbers|;
  }

  lemma PageSold()
    ensures |SoldPrizes(PrizeTiers)| == 8
  {
    var t := PrizeTiers;
    SoldPrizesCount(t);
    SoldInTiers();
    TotalSoldOfFour(t);
  }

  lemma TotalSoldOfFour(tiers: seq<PrizeTier>)
    requires |tiers| == 4
    ensures TotalSold(tiers) == CountSold(tiers[0].numbers) + CountSold(tiers[1].numbers)
      + CountSold(tiers[2].numbers) + CountSold(tiers[3].numbers)
  {
    var r1 := tiers[1..];
    var r2 := r1[1..];
    var r3 := r2[1..];
    assert r3[1..] == [];
    assert TotalSold(r3) == CountSold(tiers[3].numbers);
    assert TotalSold(r2) == CountSold(tiers[2].numbers) + TotalSold(r3);
    assert TotalSold(r1) == CountSold(tiers[1].numbers) + TotalSold(r2);
  }

  /** Sold per tier, as the table marks them: 1, 2, 2 and 3, always the first numbers listed. */
  lemma SoldInTiers()
    ensures CountSold(PrizeTiers[0].numbers) == 1
    ensures CountSold(PrizeTiers[1].numbers) == 2
    ensures CountSold(PrizeTiers[2].numbers) == 2
    ensures CountSold(PrizeTiers[3].numbers) == 3
  {
    CountSoldPrefix(PrizeTiers[0].numbers, 1);
    CountSoldPrefix(PrizeTiers[1].numbers, 2);
    SoldInThirdTier();
    SoldInFourthTier();
  }

  lemma SoldInThirdTier()
    ensures CountSold(PrizeTiers[2].numbers) == 2
  {
    var ns := PrizeTiers[2].numbers;
    assert |ns| == 15;
    assert forall j :: 2 <= j < 15 ==> !ns[j].sold;
    CountSoldPrefix(ns, 2);
  }

  lemma SoldInFourthTier()
    ensures CountSold(PrizeTiers[3].numbers) == 3
  {
    var ns := PrizeTiers[3].numbers;
    assert |ns| == 15;
    assert forall j :: 3 <= j < 15 ==> !ns[j].sold;
    CountSoldPrefix(ns, 3);
  }

  /** A list whose first `n` numbers are sold, and no others, has `n` sold. */
  lemma {:induction false} CountSoldPrefix(numbers: seq<Ticket>, n: nat)
    requires n <= |numbers|
    requires forall j :: 0 <= j < |numbers| ==> (numbers[j].sold <==> j < n)
    ensures CountSold(numbers) == n
    decreases |numbers|
  {
    if numbers != [] {
      CountSoldPrefix(numbers[1..], if n == 0 then 0 else n - 1);
    }
  }

  /** The page lists 39 numbers, shows "31 disponíveis/39 cotas", and has 9 main prizes. */
  lemma PageCounts()
    ensures |AllPrizes(PrizeTiers)| == 39
    ensures |MainPrizes(PrizeTiers)| == 9
    ensures |SoldPrizes(PrizeTiers)| == 8
    ensures |AvailablePrizes(PrizeTiers)| == 31
  {
    PageTotal();
    PageMain();
    PageSold();
    AvailableAndSoldPartition(PrizeTiers);
  }
}
