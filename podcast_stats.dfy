/**
 * The podcast statistics panel's data: keysend invoices bucketed into day windows
 * counted back from "now", one label-keyed total per window, listed oldest first
 * with the leading run of empty windows cut off.
 */
module PodcastStats {
  import opened Wrappers
  import opened LabelMap
  import opened Binning

  /**
   * An invoice of the node's invoice list, reduced to the fields the panel reads.
   * `settleDate` is `None` when the field is missing or falsy.
   */
  datatype Invoice = Invoice(settled: bool, isKeysend: bool, settleDate: Option<int>, amtPaidSat: int)

  /** `bins` windows of `interval` seconds, the newest ending at `start` (and open towards the future). */
  datatype BinConfig = BinConfig(interval: int, bins: nat, start: int)

  const SecondsPerDay: int := 86400
  const DaysShown: nat := 14

  /** The layout the panel uses: fourteen one-day windows, the newest ending now. */
  function PodcastConfig(now: int): (cfg: BinConfig)
    ensures |Ends(cfg)| == 14
    ensures forall i :: 0 <= i < 14 ==> Ends(cfg)[i] == now - i * 86400
  {
    BinConfig(SecondsPerDay, DaysShown, now)
  }

  function Ends(cfg: BinConfig): seq<int> {
    WindowEnds(cfg.interval, cfg.bins, cfg.start)
  }

  // ---------------------------------------------------------------------------
  // Which invoices count, and where

  /** The filter applied when the invoices are loaded: settled keysend payments only. */
  predicate IsEligible(inv: Invoice) {
    inv.settled && inv.isKeysend
  }

  /**
   * `Array.prototype.filter` with `IsEligible`: every eligible invoice is kept as
   * often as it occurs, every other one is dropped.
   */
  function Eligible(raw: seq<Invoice>): (r: seq<Invoice>)
    ensures |r| <= |raw|
    ensures forall inv :: inv in r <==> inv in raw && IsEligible(inv)
    ensures forall inv :: multiset(r)[inv] == if IsEligible(inv) then multiset(raw)[inv] else 0
  {
    if raw == [] then []
    else
      var last := raw[|raw| - 1];
      assert raw == raw[..|raw| - 1] + [last];
      Eligible(raw[..|raw| - 1]) + (if IsEligible(last) then [last] else [])
  }

  /**
   * The filter works piece by piece: filtering a concatenation is concatenating the
   * filtered pieces, so the kept invoices stay in their original order.
   */
  lemma {:induction false} EligibleAppend(a: seq<Invoice>, b: seq<Invoice>)
    ensures Eligible(a + b) == Eligible(a) + Eligible(b)
  {
    if b == [] {
      assert a + b == a;
    } else {
      var init, last := b[..|b| - 1], b[|b| - 1];
      assert a + b == (a + init) + [last] && b == init + [last];
      EligibleSnoc(a + init, last);
      EligibleSnoc(init, last);
      EligibleAppend(a, init);
      ConcatAssoc(Eligible(a), Eligible(init), if IsEligible(last) then [last] else []);
    }
  }

  lemma ConcatAssoc(x: seq<Invoice>, y: seq<Invoice>, z: seq<Invoice>)
    ensures (x + y) + z == x + (y + z)
  {
  }

  /** Filtering one more invoice appends it exactly when it is eligible. */
  lemma EligibleSnoc(s: seq<Invoice>, x: Invoice)
    ensures Eligible(s + [x]) == Eligible(s) + (if IsEligible(x) then [x] else [])
  {
    assert (s + [x])[..|s + [x]| - 1] == s;
  }

  /**
   * The window an invoice is added into, or `None` when it is skipped: no settle
   * date, no window found, or a window end of 0 (which JavaScript treats as false).
   */
  function ContributingBin(inv: Invoice, cfg: BinConfig): (r: Option<int>)
    ensures r.Some? ==> inv.settleDate.Some? && r.value != 0 && r.value in Ends(cfg)
    ensures inv.settleDate.None? ==> r.None?
    ensures inv.settleDate.Some? && GetBin(inv.settleDate.value, cfg.interval, cfg.bins, cfg.start) != Some(0) ==>
              r == GetBin(inv.settleDate.value, cfg.interval, cfg.bins, cfg.start)
    ensures inv.settleDate.Some? && GetBin(inv.settleDate.value, cfg.interval, cfg.bins, cfg.start) == Some(0) ==>
              r.None?
  {
    match inv.settleDate
    case None => None
    case Some(t) =>
      var bin := GetBin(t, cfg.interval, cfg.bins, cfg.start);
      if bin.None? || bin.value == 0 then None
      else
        GetBinInWindowEnds(t, cfg.interval, cfg.bins, cfg.start);
        bin
  }

  /**
   * With a positive interval, an invoice lands in some window exactly when it is settled
   * inside the range and the end of its window, which is what `GetBin` returns, is not 0.
   */
  lemma ContributesIffInRange(inv: Invoice, cfg: BinConfig)
    requires cfg.interval > 0 && inv.settleDate.Some?
    ensures ContributingBin(inv, cfg).Some? <==>
              cfg.bins > 0 && inv.settleDate.value >= cfg.start - cfg.bins * cfg.interval &&
              GetBin(inv.settleDate.value, cfg.interval, cfg.bins, cfg.start) != Some(0)
  {
    GetBinOutOfRange(inv.settleDate.value, cfg.interval, cfg.bins, cfg.start);
  }

  // ---------------------------------------------------------------------------
  // The aggregation, as functions of the inputs

  /** The map after seeding: one zero total per distinct label of the window ends. */
  function SeedTotals(labelOf: int -> string, ends: seq<int>): (r: seq<Point>)
    ensures |r| <= |ends|
    ensures DistinctKeys(r)
    ensures forall i :: 0 <= i < |r| ==> r[i].y == 0
  {
    if ends == [] then []
    else Set(SeedTotals(labelOf, ends[..|ends| - 1]), labelOf(ends[|ends| - 1]), 0)
  }

  /** Every key of the seeded map is the label of some window: seeding adds nothing else. */
  lemma {:induction false} SeedKeysAreLabels(labelOf: int -> string, ends: seq<int>)
    ensures forall i :: 0 <= i < |SeedTotals(labelOf, ends)| ==>
              exists k :: 0 <= k < |ends| && SeedTotals(labelOf, ends)[i].x == labelOf(ends[k])
  {
    if ends != [] {
      var n := |ends| - 1;
      var init := ends[..n];
      SeedKeysAreLabels(labelOf, init);
      var m := SeedTotals(labelOf, init);
      var key := labelOf(ends[n]);
      var r := Set(m, key, 0);
      assert SeedTotals(labelOf, ends) == r;
      forall i | 0 <= i < |r|
        ensures exists k :: 0 <= k < |ends| && SeedTotals(labelOf, ends)[i].x == labelOf(ends[k])
      {
        if r[i] == Point(key, 0) {
          assert SeedTotals(labelOf, ends)[i].x == labelOf(ends[n]);
        } else {
          assert i < |m| && r[i] == m[i];
          var k :| 0 <= k < |init| && m[i].x == labelOf(init[k]);
          assert init[k] == ends[k];
          assert SeedTotals(labelOf, ends)[i].x == labelOf(ends[k]);
        }
      }
    } else {
      assert SeedTotals(labelOf, ends) == [];
    }
  }

  /** Every window's label is a key of the seeded map, holding 0. */
  lemma {:induction false} SeedCoversWindows(labelOf: int -> string, ends: seq<int>)
    ensures forall i :: 0 <= i < |ends| ==> Get(SeedTotals(labelOf, ends), labelOf(ends[i])) == Some(0)
  {
    if ends != [] {
      var n := |ends| - 1;
      var init := ends[..n];
      SeedCoversWindows(labelOf, init);
      var m := SeedTotals(labelOf, init);
      var key := labelOf(ends[n]);
      GetSet(m, key, 0);
      var r := Set(m, key, 0);
      assert SeedTotals(labelOf, ends) == r;
      forall i | 0 <= i < |ends| ensures Get(r, labelOf(ends[i])) == Some(0) {
        var other := labelOf(ends[i]);
        if other != key {
          assert init[i] == ends[i];
          assert Get(r, other) == Get(m, other);
        }
      }
    }
  }

  /** One pass of the second loop: add the invoice's amount to its window's total. */
  function AddInvoice(data: seq<Point>, inv: Invoice, cfg: BinConfig, labelOf: int -> string): (r: seq<Point>)
    ensures ContributingBin(inv, cfg).None? ==> r == data
    ensures ContributingBin(inv, cfg).Some? ==>
              Get(r, labelOf(ContributingBin(inv, cfg).value)) ==
                Some(inv.amtPaidSat + Get(data, labelOf(ContributingBin(inv, cfg).value)).GetOr(0))
    ensures ContributingBin(inv, cfg).Some? ==>
              forall other :: other != labelOf(ContributingBin(inv, cfg).value) ==> Get(r, other) == Get(data, other)
  {
    match ContributingBin(inv, cfg)
    case None => data
    case Some(b) =>
      var key := labelOf(b);
      var y := inv.amtPaidSat + Get(data, key).GetOr(0);
      GetSet(data, key, y);
      Set(data, key, y)
  }

  /** The second loop as a fold: entries already in the map keep their positions and keys. */
  function AddInvoices(data: seq<Point>, invs: seq<Invoice>, cfg: BinConfig, labelOf: int -> string): (r: seq<Point>)
    ensures |data| <= |r|
    ensures forall i :: 0 <= i < |data| ==> r[i].x == data[i].x
  {
    if invs == [] then data
    else AddInvoice(AddInvoices(data, invs[..|invs| - 1], cfg, labelOf), invs[|invs| - 1], cfg, labelOf)
  }

  /**
   * When every window's label is already a key, as after seeding, the invoice loop
   * adds no entry: the map keeps its length and its keys.
   */
  lemma {:induction false} AddInvoicesNoNewKeys(data: seq<Point>, invs: seq<Invoice>, cfg: BinConfig, labelOf: int -> string)
    requires forall i :: 0 <= i < |Ends(cfg)| ==> Get(data, labelOf(Ends(cfg)[i])).Some?
    ensures |AddInvoices(data, invs, cfg, labelOf)| == |data|
  {
    if invs != [] {
      var init, last := invs[..|invs| - 1], invs[|invs| - 1];
      AddInvoicesNoNewKeys(data, init, cfg, labelOf);
      var d := AddInvoices(data, init, cfg, labelOf);
      assert AddInvoices(data, invs, cfg, labelOf) == AddInvoice(d, last, cfg, labelOf);
      match ContributingBin(last, cfg)
      case None =>
      case Some(b) =>
        var ends := Ends(cfg);
        var k :| 0 <= k < |ends| && ends[k] == b;
        GetKeptKey(data, d, labelOf(ends[k]));
    }
  }

  /**
   * The totals are the seeded entries, in seeding order: no more than one per window,
   * and each labelled by some window.
   */
  lemma TotalsKeepSeedKeys(invs: seq<Invoice>, cfg: BinConfig, labelOf: int -> string)
    ensures |Totals(invs, cfg, labelOf)| == |SeedTotals(labelOf, Ends(cfg))| <= cfg.bins
    ensures forall i :: 0 <= i < |Totals(invs, cfg, labelOf)| ==>
              Totals(invs, cfg, labelOf)[i].x == SeedTotals(labelOf, Ends(cfg))[i].x
    ensures forall i :: 0 <= i < |Totals(invs, cfg, labelOf)| ==>
              exists k :: 0 <= k < cfg.bins && Totals(invs, cfg, labelOf)[i].x == labelOf(WindowEnd(cfg.start, cfg.interval, k))
  {
    var ends := Ends(cfg);
    var seed := SeedTotals(labelOf, ends);
    SeedCoversWindows(labelOf, ends);
    AddInvoicesNoNewKeys(seed, invs, cfg, labelOf);
    SeedKeysAreLabels(labelOf, ends);
    var t := Totals(invs, cfg, labelOf);
    forall i | 0 <= i < |t| ensures exists k :: 0 <= k < cfg.bins && t[i].x == labelOf(WindowEnd(cfg.start, cfg.interval, k)) {
      var k :| 0 <= k < |ends| && seed[i].x == labelOf(ends[k]);
      assert ends[k] == WindowEnd(cfg.start, cfg.interval, k);
    }
  }

  lemma AddInvoicesStep(data: seq<Point>, invs: seq<Invoice>, i: nat, cfg: BinConfig, labelOf: int -> string)
    requires i < |invs|
    ensures AddInvoices(data, invs[..i + 1], cfg, labelOf) == AddInvoice(AddInvoices(data, invs[..i], cfg, labelOf), invs[i], cfg, labelOf)
  {
    assert invs[..i + 1][..i] == invs[..i];
  }

  /** The label-keyed totals, newest window first, before reversal and trimming. */
  function Totals(invs: seq<Invoice>, cfg: BinConfig, labelOf: int -> string): seq<Point> {
    AddInvoices(SeedTotals(labelOf, Ends(cfg)), invs, cfg, labelOf)
  }

  /** `Array.prototype.reverse`. */
  function Reverse(s: seq<Point>): (r: seq<Point>)
    ensures |r| == |s|
    ensures forall i :: 0 <= i < |s| ==> r[i] == s[|s| - 1 - i]
  {
    if s == [] then [] else [s[|s| - 1]] + Reverse(s[..|s| - 1])
  }

  /** Index of the first point with a positive total, or `|s|` when there is none. */
  function FirstPositive(s: seq<Point>): (k: nat)
    ensures k <= |s|
    ensures k < |s| ==> s[k].y > 0
    ensures forall j :: 0 <= j < k ==> s[j].y <= 0
  {
    if s == [] then 0
    else if s[0].y > 0 then 0
    else 1 + FirstPositive(s[1..])
  }

  /**
   * Drop the leading run of non-positive totals: what is left is a suffix that is
   * empty or starts with a positive total, and only non-positive points were dropped.
   */
  function TrimLeading(s: seq<Point>): (r: seq<Point>)
    ensures r == [] || r[0].y > 0
    ensures |r| <= |s| && r == s[|s| - |r|..]
    ensures forall j :: 0 <= j < |s| - |r| ==> s[j].y <= 0
  {
    s[FirstPositive(s)..]
  }

  /**
   * The chart data: `None` when the invoices are not loaded or when nothing is left
   * after trimming, otherwise the trimmed totals oldest first.
   */
  function ChartData(invoices: Option<seq<Invoice>>, cfg: BinConfig, labelOf: int -> string): (r: Option<seq<Point>>)
    ensures invoices.None? ==> r.None?
    ensures r.Some? ==> r.value != [] && r.value[0].y > 0
  {
    match invoices
    case None => None
    case Some(invs) =>
      var out := TrimLeading(Reverse(Totals(invs, cfg, labelOf)));
      if |out| > 0 then Some(out) else None
  }

  // ---------------------------------------------------------------------------
  // The computation as the panel performs it

  /**
   * The `filter` with the `firstNonZeroEncountered` flag: reject points until the
   * first positive total, keep that one and every point after it.
   */
  method ChopInitialZeros(values: seq<Point>) returns (output: seq<Point>)
    ensures output == TrimLeading(values)
  {
    var firstNonZeroEncountered := false;
    output := [];
    for i := 0 to |values|
      invariant !firstNonZeroEncountered ==> output == [] && forall j :: 0 <= j < i ==> values[j].y <= 0
      invariant firstNonZeroEncountered ==> FirstPositive(values) < i && output == values[FirstPositive(values)..i]
    {
      if firstNonZeroEncountered {
        output := output + [values[i]];
      } else if values[i].y > 0 {
        firstNonZeroEncountered := true;
        output := output + [values[i]];
      }
    }
  }

  /**
   * `podcastData`: when the invoices are loaded, aggregate them over fourteen
   * one-day windows ending now. `labelOf` stands for `binToStr`.
   */
  method PodcastData(invoices: Option<seq<Invoice>>, now: int, labelOf: int -> string) returns (r: Option<seq<Point>>)
    ensures r == ChartData(invoices, PodcastConfig(now), labelOf)
    ensures r.Some? ==> r.value != [] && r.value[0].y > 0
  {
    if invoices.None? {
      return None;
    }
    r := Aggregate(invoices.value, PodcastConfig(now), labelOf);
  }

  /**
   * One pass of the loop over the invoices: skip an invoice without a settle date or
   * outside the windows, otherwise add its amount to the total of its window's label.
   */
  method AccumulateInvoice(data: seq<Point>, invoice: Invoice, cfg: BinConfig, labelOf: int -> string)
    returns (next: seq<Point>)
    ensures next == AddInvoice(data, invoice, cfg, labelOf)
  {
    next := data;
    if invoice.settleDate.None? {
      return;
    }
    var bin := GetBin(invoice.settleDate.value, cfg.interval, cfg.bins, cfg.start);
    // a time outside the range, or a window whose end is 0, is skipped
    if bin.None? || bin.value == 0 {
      return;
    }
    var dateKey := labelOf(bin.value);
    var prevAmt := Get(data, dateKey);
    next := Set(data, dateKey, invoice.amtPaidSat + prevAmt.GetOr(0));
  }

  /** The first loop: `data.set(binToStr(bin), {x, y: 0})` for every window end, in order. */
  method SeedMap(labelOf: int -> string, bins: seq<int>) returns (data: seq<Point>)
    ensures data == SeedTotals(labelOf, bins)
  {
    data := [];
    for i := 0 to |bins|
      invariant data == SeedTotals(labelOf, bins[..i])
    {
      assert bins[..i + 1][..i] == bins[..i] && bins[..i + 1][i] == bins[i];
      var key := labelOf(bins[i]);
      data := Set(data, key, 0);
    }
    assert bins[..|bins|] == bins;
  }

  /**
   * The body of `podcastData` for a window layout `cfg`: seed one zero total per
   * window label, add every invoice's amount into its window, reverse to oldest
   * first and chop the leading zeros.
   */
  method Aggregate(invs: seq<Invoice>, cfg: BinConfig, labelOf: int -> string) returns (r: Option<seq<Point>>)
    ensures r == ChartData(Some(invs), cfg, labelOf)
  {
    var bins := MakeBins(cfg.interval, cfg.bins, cfg.start);
    var data := SeedMap(labelOf, bins);
    ghost var seeded := data;
    assert seeded == SeedTotals(labelOf, Ends(cfg));
    for i := 0 to |invs|
      invariant data == AddInvoices(seeded, invs[..i], cfg, labelOf)
    {
      AddInvoicesStep(seeded, invs, i, cfg, labelOf);
      data := AccumulateInvoice(data, invs[i], cfg, labelOf);
    }
    assert invs[..|invs|] == invs;
    assert data == Totals(invs, cfg, labelOf);
    var output := ChopInitialZeros(Reverse(data));
    r := if |output| > 0 then Some(output) else None;
  }

  // ---------------------------------------------------------------------------
  // Properties of the chart data

  /** With no windows configured there is never anything to chart. */
  lemma NoWindowsNoData(invoices: Option<seq<Invoice>>, cfg: BinConfig, labelOf: int -> string)
    requires cfg.bins == 0
    ensures ChartData(invoices, cfg, labelOf) == None
  {
    if invoices.Some? {
      NothingContributes(invoices.value, cfg, labelOf);
    }
  }

  lemma {:induction false} NothingContributes(invs: seq<Invoice>, cfg: BinConfig, labelOf: int -> string)
    requires cfg.bins == 0
    ensures Totals(invs, cfg, labelOf) == []
  {
    if invs != [] {
      NothingContributes(invs[..|invs| - 1], cfg, labelOf);
    }
  }

  /**
   * The shape of the output: `None` for loaded invoices exactly when no window has a
   * positive total; otherwise the output is a non-empty suffix of the oldest-first
   * totals whose first point is positive, and every point cut off before it was a
   * leading point with a non-positive total.
   */
  lemma ChartDataShape(invs: seq<Invoice>, cfg: BinConfig, labelOf: int -> string)
    ensures var oldestFirst := Reverse(Totals(invs, cfg, labelOf));
            match ChartData(Some(invs), cfg, labelOf)
            case None => forall j :: 0 <= j < |oldestFirst| ==> oldestFirst[j].y <= 0
            case Some(out) =>
              && out != [] && out[0].y > 0
              && |out| <= |oldestFirst| && out == oldestFirst[|oldestFirst| - |out|..]
              && forall j :: 0 <= j < |oldestFirst| - |out| ==> oldestFirst[j].y <= 0
  {
  }

  // --- conservation of the totals

  /** The amount an invoice adds to the chart: its amount when it lands in a window, else 0. */
  function Contribution(inv: Invoice, cfg: BinConfig): int {
    if ContributingBin(inv, cfg).Some? then inv.amtPaidSat else 0
  }

  /** Sum of the amounts of the invoices that land in some window. */
  function InRangeSum(invs: seq<Invoice>, cfg: BinConfig): int {
    if invs == [] then 0
    else InRangeSum(invs[..|invs| - 1], cfg) + Contribution(invs[|invs| - 1], cfg)
  }

  /** Sum of the amounts of the invoices that land in window `b`. */
  function WindowSum(invs: seq<Invoice>, cfg: BinConfig, b: int): int {
    if invs == [] then 0
    else
      var last := invs[|invs| - 1];
      WindowSum(invs[..|invs| - 1], cfg, b) + (if ContributingBin(last, cfg) == Some(b) then last.amtPaidSat else 0)
  }

  ghost predicate NonNegativeAmounts(invs: seq<Invoice>) {
    forall inv :: inv in invs ==> inv.amtPaidSat >= 0
  }

  lemma {:induction false} AddInvoicesTotal(data: seq<Point>, invs: seq<Invoice>, cfg: BinConfig, labelOf: int -> string)
    ensures Total(AddInvoices(data, invs, cfg, labelOf)) == Total(data) + InRangeSum(invs, cfg)
  {
    if invs != [] {
      var init, last := invs[..|invs| - 1], invs[|invs| - 1];
      AddInvoicesTotal(data, init, cfg, labelOf);
      var d := AddInvoices(data, init, cfg, labelOf);
      assert AddInvoices(data, invs, cfg, labelOf) == AddInvoice(d, last, cfg, labelOf);
      assert InRangeSum(invs, cfg) == InRangeSum(init, cfg) + Contribution(last, cfg);
      AddInvoiceTotal(d, last, cfg, labelOf);
    }
  }

  /** One pass of the invoice loop raises the sum of the totals by the invoice's contribution. */
  lemma AddInvoiceTotal(data: seq<Point>, inv: Invoice, cfg: BinConfig, labelOf: int -> string)
    ensures Total(AddInvoice(data, inv, cfg, labelOf)) == Total(data) + Contribution(inv, cfg)
  {
    match ContributingBin(inv, cfg)
    case None =>
    case Some(b) =>
      SetTotal(data, labelOf(b), inv.amtPaidSat + Get(data, labelOf(b)).GetOr(0));
  }

  lemma {:induction false} AddInvoicesNonNegative(data: seq<Point>, invs: seq<Invoice>, cfg: BinConfig, labelOf: int -> string)
    requires NonNegativeAmounts(invs)
    requires forall i :: 0 <= i < |data| ==> data[i].y >= 0
    ensures forall i :: 0 <= i < |AddInvoices(data, invs, cfg, labelOf)| ==> AddInvoices(data, invs, cfg, labelOf)[i].y >= 0
  {
    if invs != [] {
      var init, last := invs[..|invs| - 1], invs[|invs| - 1];
      assert forall inv :: inv in init ==> inv in invs;
      AddInvoicesNonNegative(data, init, cfg, labelOf);
      var d := AddInvoices(data, init, cfg, labelOf);
      assert forall i :: 0 <= i < |d| ==> d[i].y >= 0;
      assert AddInvoices(data, invs, cfg, labelOf) == AddInvoice(d, last, cfg, labelOf);
      match ContributingBin(last, cfg)
      case None =>
      case Some(b) =>
        var prev := Get(d, labelOf(b));
        assert prev.Some? ==> prev.value >= 0;
    }
  }

  lemma {:induction false} TotalReverse(s: seq<Point>)
    ensures Total(Reverse(s)) == Total(s)
  {
    if s != [] {
      var init, last := s[..|s| - 1], s[|s| - 1];
      TotalReverse(init);
      assert Reverse(s) == [last] + Reverse(init);
      TotalAppend([last], Reverse(init));
      assert s == init + [last];
      TotalAppend(init, [last]);
    }
  }

  /**
   * When no amount is negative, nothing is lost or invented: the totals in the output
   * (an empty chart when it is `None`) add up to the amounts of the invoices that
   * land in the windows.
   */
  lemma ChartDataConservesAmounts(invs: seq<Invoice>, cfg: BinConfig, labelOf: int -> string)
    requires NonNegativeAmounts(invs)
    ensures Total(ChartData(Some(invs), cfg, labelOf).GetOr([])) == InRangeSum(invs, cfg)
  {
    var t := Totals(invs, cfg, labelOf);
    TotalsSum(invs, cfg, labelOf);
    TotalsNonNegative(invs, cfg, labelOf);
    var rev := Reverse(t);
    TotalReverse(t);
    assert forall i :: 0 <= i < |rev| ==> rev[i].y >= 0 by {
      forall i | 0 <= i < |rev| ensures rev[i].y >= 0 {
        assert rev[i] == t[|t| - 1 - i];
      }
    }
    TrimKeepsTotal(rev);
    var out := TrimLeading(rev);
    assert ChartData(Some(invs), cfg, labelOf) == if |out| > 0 then Some(out) else None;
  }

  /** The sum of the totals is the amount of the invoices that land in a window, whatever the amounts. */
  lemma TotalsSum(invs: seq<Invoice>, cfg: BinConfig, labelOf: int -> string)
    ensures Total(Totals(invs, cfg, labelOf)) == InRangeSum(invs, cfg)
  {
    var seed := SeedTotals(labelOf, Ends(cfg));
    TotalOfZeros(seed);
    AddInvoicesTotal(seed, invs, cfg, labelOf);
  }

  /** With non-negative amounts no total is negative. */
  lemma TotalsNonNegative(invs: seq<Invoice>, cfg: BinConfig, labelOf: int -> string)
    requires NonNegativeAmounts(invs)
    ensures forall i :: 0 <= i < |Totals(invs, cfg, labelOf)| ==> Totals(invs, cfg, labelOf)[i].y >= 0
  {
    AddInvoicesNonNegative(SeedTotals(labelOf, Ends(cfg)), invs, cfg, labelOf);
  }

  /** Among non-negative totals, the points cut off are all 0, so trimming keeps the sum. */
  lemma TrimKeepsTotal(s: seq<Point>)
    requires forall i :: 0 <= i < |s| ==> s[i].y >= 0
    ensures Total(TrimLeading(s)) == Total(s)
  {
    var cut := FirstPositive(s);
    assert TrimLeading(s) == s[cut..];
    TotalDropZeros(s, cut);
  }

  /** Sum of the amounts of the invoices that pass the loading filter and land in a window. */
  function EligibleInRangeSum(raw: seq<Invoice>, cfg: BinConfig): int {
    if raw == [] then 0
    else
      var last := raw[|raw| - 1];
      EligibleInRangeSum(raw[..|raw| - 1], cfg) + (if IsEligible(last) then Contribution(last, cfg) else 0)
  }

  lemma {:induction false} EligibleSum(raw: seq<Invoice>, cfg: BinConfig)
    ensures InRangeSum(Eligible(raw), cfg) == EligibleInRangeSum(raw, cfg)
  {
    if raw != [] {
      var init, last := raw[..|raw| - 1], raw[|raw| - 1];
      EligibleSum(init, cfg);
      InRangeSumSnoc(Eligible(init), if IsEligible(last) then [last] else [], cfg);
    }
  }

  lemma {:induction false} InRangeSumSnoc(a: seq<Invoice>, b: seq<Invoice>, cfg: BinConfig)
    requires |b| <= 1
    ensures InRangeSum(a + b, cfg) == InRangeSum(a, cfg) + InRangeSum(b, cfg)
  {
    if b != [] {
      assert (a + b)[..|a + b| - 1] == a;
      assert b[..0] == [];
    } else {
      assert a + b == a;
    }
  }

  /**
   * The panel end to end: of the loaded invoice list, only settled keysend invoices
   * that land in a window reach the chart, and their amounts are all there, provided
   * none of those invoices has a negative amount (a negative leading total is trimmed).
   */
  lemma PodcastDataCountsEligible(raw: seq<Invoice>, cfg: BinConfig, labelOf: int -> string)
    requires NonNegativeAmounts(Eligible(raw))
    ensures Total(ChartData(Some(Eligible(raw)), cfg, labelOf).GetOr([])) == EligibleInRangeSum(raw, cfg)
  {
    ChartDataConservesAmounts(Eligible(raw), cfg, labelOf);
    EligibleSum(raw, cfg);
  }

  // --- one point per window when the labels do not collide

  /** No two windows of the layout render to the same label. */
  ghost predicate LabelsDistinct(labelOf: int -> string, cfg: BinConfig) {
    forall i, j :: 0 <= i < j < cfg.bins ==>
      labelOf(WindowEnd(cfg.start, cfg.interval, i)) != labelOf(WindowEnd(cfg.start, cfg.interval, j))
  }

  lemma {:induction false} SeedDistinctLabels(labelOf: int -> string, ends: seq<int>)
    requires forall i, j :: 0 <= i < j < |ends| ==> labelOf(ends[i]) != labelOf(ends[j])
    ensures var r := SeedTotals(labelOf, ends);
            |r| == |ends| && forall i :: 0 <= i < |r| ==> r[i] == Point(labelOf(ends[i]), 0)
  {
    if ends != [] {
      var n := |ends| - 1;
      var init := ends[..n];
      assert forall i :: 0 <= i < n ==> init[i] == ends[i];
      SeedDistinctLabels(labelOf, init);
      var m := SeedTotals(labelOf, init);
      var key := labelOf(ends[n]);
      forall j | 0 <= j < |m| ensures m[j].x != key {
        assert m[j].x == labelOf(ends[j]);
      }
      SetAbsent(m, key, 0);
      assert SeedTotals(labelOf, ends) == m + [Point(key, 0)];
    }
  }

  /** The totals keep one point per window, in window order, each labelled by its window. */
  ghost predicate OnePointPerWindow(data: seq<Point>, cfg: BinConfig, labelOf: int -> string) {
    |data| == cfg.bins &&
    forall i :: 0 <= i < |data| ==> data[i].x == labelOf(WindowEnd(cfg.start, cfg.interval, i))
  }

  lemma AddInvoicePerWindow(data: seq<Point>, inv: Invoice, cfg: BinConfig, labelOf: int -> string)
    requires LabelsDistinct(labelOf, cfg) && OnePointPerWindow(data, cfg, labelOf)
    ensures var r := AddInvoice(data, inv, cfg, labelOf);
            OnePointPerWindow(r, cfg, labelOf) &&
            forall i :: 0 <= i < |r| ==>
              r[i].y == data[i].y + (if ContributingBin(inv, cfg) == Some(WindowEnd(cfg.start, cfg.interval, i)) then inv.amtPaidSat else 0)
  {
    match ContributingBin(inv, cfg)
    case None =>
    case Some(b) =>
      var ends := Ends(cfg);
      var k :| 0 <= k < |ends| && ends[k] == b;
      FindIsLeast(data, labelOf(b), k);
  }

  lemma {:induction false} AddInvoicesPerWindow(data: seq<Point>, invs: seq<Invoice>, cfg: BinConfig, labelOf: int -> string)
    requires LabelsDistinct(labelOf, cfg) && OnePointPerWindow(data, cfg, labelOf)
    ensures var r := AddInvoices(data, invs, cfg, labelOf);
            OnePointPerWindow(r, cfg, labelOf) &&
            forall i :: 0 <= i < |r| ==> r[i].y == data[i].y + WindowSum(invs, cfg, WindowEnd(cfg.start, cfg.interval, i))
  {
    if invs != [] {
      var init, last := invs[..|invs| - 1], invs[|invs| - 1];
      AddInvoicesPerWindow(data, init, cfg, labelOf);
      AddInvoicePerWindow(AddInvoices(data, init, cfg, labelOf), last, cfg, labelOf);
    }
  }

  /**
   * With labels that do not collide, point `j` of the output is window `|out| - 1 - j`
   * (so the last point is the current window) and its total is the sum of the amounts
   * of the invoices that land in that window.
   */
  lemma ChartDataPerWindow(invs: seq<Invoice>, cfg: BinConfig, labelOf: int -> string)
    requires LabelsDistinct(labelOf, cfg)
    ensures var t := Totals(invs, cfg, labelOf);
            |t| == cfg.bins &&
            forall i :: 0 <= i < cfg.bins ==>
              t[i] == Point(labelOf(WindowEnd(cfg.start, cfg.interval, i)), WindowSum(invs, cfg, WindowEnd(cfg.start, cfg.interval, i)))
    ensures ChartData(Some(invs), cfg, labelOf).Some? ==>
              var out := ChartData(Some(invs), cfg, labelOf).value;
              forall j :: 0 <= j < |out| ==>
                var w := WindowEnd(cfg.start, cfg.interval, |out| - 1 - j);
                out[j] == Point(labelOf(w), WindowSum(invs, cfg, w))
  {
    TotalsPerWindow(invs, cfg, labelOf);
    var t := Totals(invs, cfg, labelOf);
    OutputPerWindow(t, invs, cfg, labelOf);
    assert ChartData(Some(invs), cfg, labelOf) == if |TrimLeading(Reverse(t))| > 0 then Some(TrimLeading(Reverse(t))) else None;
  }

  /** Trimming the reversed per-window totals leaves the newest windows, oldest first. */
  lemma OutputPerWindow(t: seq<Point>, invs: seq<Invoice>, cfg: BinConfig, labelOf: int -> string)
    requires |t| == cfg.bins
    requires forall i :: 0 <= i < |t| ==>
               t[i] == Point(labelOf(WindowEnd(cfg.start, cfg.interval, i)), WindowSum(invs, cfg, WindowEnd(cfg.start, cfg.interval, i)))
    ensures forall j :: 0 <= j < |TrimLeading(Reverse(t))| ==>
              var w := WindowEnd(cfg.start, cfg.interval, |TrimLeading(Reverse(t))| - 1 - j);
              TrimLeading(Reverse(t))[j] == Point(labelOf(w), WindowSum(invs, cfg, w))
  {
    TrimReverseIndex(t);
  }

  /** Point `j` of the trimmed, reversed totals is total `len - 1 - j`, where `len` is the output length. */
  lemma TrimReverseIndex(t: seq<Point>)
    ensures |TrimLeading(Reverse(t))| <= |t|
    ensures forall j :: 0 <= j < |TrimLeading(Reverse(t))| ==>
              TrimLeading(Reverse(t))[j] == t[|TrimLeading(Reverse(t))| - 1 - j]
  {
    var rev := Reverse(t);
    var cut := FirstPositive(rev);
    var out := rev[cut..];
    assert TrimLeading(rev) == out;
    forall j | 0 <= j < |out| ensures out[j] == t[|out| - 1 - j] {
      assert out[j] == rev[cut + j];
    }
  }

  /** With distinct labels, total `i` is window `i`'s label and the sum of its amounts. */
  lemma TotalsPerWindow(invs: seq<Invoice>, cfg: BinConfig, labelOf: int -> string)
    requires LabelsDistinct(labelOf, cfg)
    ensures var t := Totals(invs, cfg, labelOf);
            |t| == cfg.bins &&
            forall i :: 0 <= i < cfg.bins ==>
              t[i] == Point(labelOf(WindowEnd(cfg.start, cfg.interval, i)), WindowSum(invs, cfg, WindowEnd(cfg.start, cfg.interval, i)))
  {
    var ends := Ends(cfg);
    SeedDistinctLabels(labelOf, ends);
    var seed := SeedTotals(labelOf, ends);
    AddInvoicesPerWindow(seed, invs, cfg, labelOf);
  }

  // --- a worked example

  /**
   * Three one-day windows ending at `t`: payments of 50 and 30 settled in the newest
   * and the middle window, and one of 99 before the range. Oldest first the totals
   * are 0, 30, 50; the leading 0 is cut off.
   */
  lemma ThreeDayExample()
    ensures var t := 1000000;
            var cfg := BinConfig(86400, 3, t);
            var labelOf := (b: int) => if b == t then "today" else if b == t - 86400 then "yesterday" else "earlier";
            var invs := [Invoice(true, true, Some(t - 1000), 50),
                         Invoice(true, true, Some(t - 90000), 30),
                         Invoice(true, true, Some(t - 300000), 99)];
            ChartData(Some(invs), cfg, labelOf) == Some([Point("yesterday", 30), Point("today", 50)])
  {
    var t := 1000000;
    var cfg := BinConfig(86400, 3, t);
    var labelOf := (b: int) => if b == t then "today" else if b == t - 86400 then "yesterday" else "earlier";
    var invs := [Invoice(true, true, Some(t - 1000), 50),
                 Invoice(true, true, Some(t - 90000), 30),
                 Invoice(true, true, Some(t - 300000), 99)];
    ExampleTotals(t, cfg, labelOf, invs);
    ExampleTrim();
  }

  lemma ExampleTrim()
    ensures TrimLeading(Reverse([Point("today", 50), Point("yesterday", 30), Point("earlier", 0)])) ==
            [Point("yesterday", 30), Point("today", 50)]
  {
    var oldestFirst := Reverse([Point("today", 50), Point("yesterday", 30), Point("earlier", 0)]);
    assert oldestFirst == [Point("earlier", 0), Point("yesterday", 30), Point("today", 50)];
    assert FirstPositive(oldestFirst) == 1;
  }

  lemma ExampleTotals(t: int, cfg: BinConfig, labelOf: int -> string, invs: seq<Invoice>)
    requires t == 1000000 && cfg == BinConfig(86400, 3, t)
    requires labelOf(t) == "today" && labelOf(t - 86400) == "yesterday" && labelOf(t - 172800) == "earlier"
    requires invs == [Invoice(true, true, Some(t - 1000), 50),
                      Invoice(true, true, Some(t - 90000), 30),
                      Invoice(true, true, Some(t - 300000), 99)]
    ensures Totals(invs, cfg, labelOf) == [Point("today", 50), Point("yesterday", 30), Point("earlier", 0)]
  {
    assert WindowEnd(t, 86400, 0) == t && WindowEnd(t, 86400, 1) == t - 86400 &&
           WindowEnd(t, 86400, 2) == t - 172800;
    assert LabelsDistinct(labelOf, cfg);
    ChartDataPerWindow(invs, cfg, labelOf);
    ExampleWindowSums(t, cfg, invs);
  }

  lemma ExampleWindowSums(t: int, cfg: BinConfig, invs: seq<Invoice>)
    requires t == 1000000 && cfg == BinConfig(86400, 3, t)
    requires invs == [Invoice(true, true, Some(t - 1000), 50),
                      Invoice(true, true, Some(t - 90000), 30),
                      Invoice(true, true, Some(t - 300000), 99)]
    ensures WindowSum(invs, cfg, t) == 50
    ensures WindowSum(invs, cfg, t - 86400) == 30
    ensures WindowSum(invs, cfg, t - 172800) == 0
  {
    assert ContributingBin(invs[0], cfg) == Some(t);
    assert ContributingBin(invs[1], cfg) == Some(t - 86400);
    GetBinOutOfRange(t - 300000, 86400, 3, t);
    assert ContributingBin(invs[2], cfg) == None;
    forall b | b in {t, t - 86400, t - 172800}
      ensures WindowSum(invs, cfg, b) ==
              (if b == t then 50 else 0) + (if b == t - 86400 then 30 else 0)
    {
      assert invs[..2][..1] == [invs[0]] && [invs[0]][..0] == [];
      assert WindowSum([invs[0]], cfg, b) == (if b == t then 50 else 0);
      assert WindowSum(invs[..2], cfg, b) == WindowSum([invs[0]], cfg, b) + (if b == t - 86400 then 30 else 0);
    }
  }
}
